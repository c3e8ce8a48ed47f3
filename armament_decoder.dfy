/** `parse_ground_armaments`: a weapon's `specs_info` block decoded into an
    `Armament`. Both revisions are covered: `Current` trims the texts it
    compares, tolerates a missing name and reads one-value (autoloader) reload
    times and the stabilizer features; `Earlier` compares raw texts, demands
    the name anchor and reads only two-value reload times. */
module ArmamentDecoder {
  import opened Wrappers
  import opened Text
  import opened Numbers
  import opened Collections
  import opened Markup
  import opened Armaments

  // ---------------------------------------------------------------------
  // The name.

  /** The gun's name. `Current`: the trimmed anchor text when the name
      element has an anchor, else the trimmed element text, and "" when the
      element is missing (the AttributeError is swallowed). `Earlier`: the
      anchor text verbatim, and no anchor raises. */
  function ArmamentName(rev: Revision, e: Option<NameElement>): (r: Result<string>)
    ensures rev == Current ==> r.Ok?
    ensures rev == Current && e.None? ==> r.value == ""
    ensures rev == Current && e.Some? && e.value.anchor.Some? ==> r.value == Trim(e.value.anchor.value)
    ensures rev == Current && e.Some? && e.value.anchor.None? ==> r.value == Trim(e.value.text)
    ensures rev == Earlier ==> (r.Ok? <==> e.Some? && e.value.anchor.Some?)
    ensures rev == Earlier && r.Ok? ==> r.value == e.value.anchor.value
  {
    match rev
    case Current =>
      (match e
       case None => Ok("")
       case Some(el) =>
         match el.anchor
         case Some(a) => Ok(Trim(a))
         case None => Ok(Trim(el.text)))
    case Earlier =>
      var el :- Need(e);
      Need(el.anchor)
  }

  /** In the current revision the name never starts or ends with white space,
      and the element text does not matter once there is an anchor. */
  lemma CurrentNameTrimmed(e: Option<NameElement>, text: string)
    ensures Trim(ArmamentName(Current, e).value) == ArmamentName(Current, e).value
    ensures e.Some? && e.value.anchor.Some? ==>
      ArmamentName(Current, Some(e.value.(text := text))) == ArmamentName(Current, e)
  {
    match e
    case None =>
    case Some(el) =>
      match el.anchor
      case Some(a) => TrimTwice(a);
      case None => TrimTwice(el.text);
  }

  // ---------------------------------------------------------------------
  // Counts, vertical guidance and reload times.

  /** `int(text.split(unit)[0].replace(" ", ""))`: the integer before the
      first `unit`, with spaces inside it removed. */
  function Count(text: string, unit: string): Option<int>
    requires |unit| > 0
  {
    ParseInt(RemoveChar(Split(text, unit)[0], ' '))
  }

  /** Whatever follows the first `unit` is ignored, and the spaces before it
      are removed. */
  lemma CountBeforeUnit(x: string, unit: string, rest: string)
    requires |unit| > 0
    requires forall j :: 0 <= j < |x| ==> !OccursAt(x + unit + rest, unit, j)
    ensures Count(x + unit + rest, unit) == ParseInt(RemoveChar(x, ' '))
  {
    SplitAt(x, unit, rest);
  }

  /** An occurrence of a unit starts with the unit's first characters. */
  lemma OccursHead(s: string, unit: string, j: nat)
    requires |unit| > 0 && OccursAt(s, unit, j)
    ensures s[j] == unit[0] && (|unit| > 1 ==> s[j + 1] == unit[1])
  {
    assert s[j..j + |unit|][0] == unit[0];
    if |unit| > 1 {
      assert s[j..j + |unit|][1] == unit[1];
    }
  }

  /** No unit starting with a non-digit occurs inside a run of digits. */
  lemma UnitAfterDigits(d: string, unit: string, rest: string)
    requires |unit| > 0 && !IsDigit(unit[0]) && IsDigits(d)
    ensures forall j :: 0 <= j < |d| ==> !OccursAt(d + unit + rest, unit, j)
  {
    var s := d + unit + rest;
    forall j | 0 <= j < |d|
      ensures !OccursAt(s, unit, j)
    {
      assert s[j] == d[j] && IsDigit(d[j]);
      if OccursAt(s, unit, j) {
        OccursHead(s, unit, j);
      }
    }
  }

  /** A value written as the decimal count followed by the unit reads back as
      that count. */
  lemma CountDecimal(n: nat, unit: string, rest: string)
    requires |unit| > 0 && !IsDigit(unit[0])
    ensures Count(Decimal(n) + unit + rest, unit) == Some(n)
  {
    var d := Decimal(n);
    UnitAfterDigits(d, unit, rest);
    CountBeforeUnit(d, unit, rest);
    assert ' ' !in d by {
      assert forall i :: 0 <= i < |d| ==> IsDigit(d[i]);
    }
    RemoveAbsentChar(d, ' ');
    ParseDecimal(n);
  }

  /** Inside digits split by one space, a unit whose first two characters
      are not digits does not occur. */
  lemma UnitAfterGroups(a: string, b: string, unit: string, rest: string)
    requires |b| > 0 && IsDigits(a) && IsDigits(b)
    requires |unit| > 1 && !IsDigit(unit[0]) && !IsDigit(unit[1])
    ensures forall j :: 0 <= j < |a + " " + b| ==> !OccursAt(a + " " + b + unit + rest, unit, j)
  {
    var x := a + " " + b;
    var s := x + unit + rest;
    forall j | 0 <= j < |x|
      ensures !OccursAt(s, unit, j)
    {
      if j < |a| {
        assert s[j] == a[j] && IsDigit(a[j]);
      } else if j == |a| {
        assert s[j + 1] == b[0] && IsDigit(b[0]);
      } else {
        assert s[j] == b[j - |a| - 1] && IsDigit(b[j - |a| - 1]);
      }
      if OccursAt(s, unit, j) {
        OccursHead(s, unit, j);
      }
    }
  }

  lemma DigitsConcat(a: string, b: string)
    requires IsDigits(a) && IsDigits(b)
    ensures IsDigits(a + b)
  {
    forall i | 0 <= i < |a + b|
      ensures IsDigit((a + b)[i])
    {
      if i < |a| {
        assert (a + b)[i] == a[i];
      } else {
        assert (a + b)[i] == b[i - |a|];
      }
    }
  }

  lemma NoSpaceInDigits(d: string)
    requires IsDigits(d)
    ensures RemoveChar(d, ' ') == d
  {
    assert ' ' !in d by {
      assert forall i :: 0 <= i < |d| ==> IsDigit(d[i]);
    }
    RemoveAbsentChar(d, ' ');
  }

  /** Removing the one space between two runs of digits joins them. */
  lemma JoinGroups(a: string, b: string)
    requires IsDigits(a) && IsDigits(b)
    ensures RemoveChar(a + " " + b, ' ') == a + b && IsDigits(a + b)
  {
    var sp := " ";
    assert RemoveChar(sp, ' ') == "" by {
      assert sp[1..] == "";
    }
    RemoveCharConcat(a + sp, b, ' ');
    RemoveCharConcat(a, sp, ' ');
    NoSpaceInDigits(a);
    NoSpaceInDigits(b);
    calc {
      RemoveChar(a + sp + b, ' ');
      RemoveChar(a + sp, ' ') + RemoveChar(b, ' ');
      RemoveChar(a, ' ') + RemoveChar(sp, ' ') + RemoveChar(b, ' ');
      a + "" + b;
      { assert a + "" == a; }
      a + b;
    }
    DigitsConcat(a, b);
  }

  /** A count with a thousands space, such as "1 200 rounds", reads as the
      digits on both sides of the space, when the unit's first two
      characters are not digits (as for " rounds" and " shots"). */
  lemma CountGrouped(a: string, b: string, unit: string, rest: string)
    requires |a| > 0 && |b| > 0 && IsDigits(a) && IsDigits(b)
    requires |unit| > 1 && !IsDigit(unit[0]) && !IsDigit(unit[1])
    ensures Count(a + " " + b + unit + rest, unit) == Some(DigitsValue(a + b))
  {
    UnitAfterGroups(a, b, unit, rest);
    CountBeforeUnit(a + " " + b, unit, rest);
    JoinGroups(a, b);
    ParseDigits(a + b);
  }

  /** The magazine of a machine gun: "1 200 rounds" holds 1200 rounds. */
  lemma CountThousands(text: string, unit: string)
    requires text == "1 200 rounds" && unit == " rounds"
    ensures Count(text, unit) == Some(1200)
  {
    var a, b := "1", "200";
    assert IsDigits(a) && IsDigits(b);
    assert !IsDigit(unit[0]) && !IsDigit(unit[1]);
    assert text == a + " " + b + unit + "";
    CountGrouped(a, b, unit, "");
    ThousandTwoHundred(a + b);
  }

  lemma ThousandTwoHundred(d: string)
    requires d == "1200"
    ensures IsDigits(d) && DigitsValue(d) == 1200
  {
    var d1, d2, d3 := d[..1], d[..2], d[..3];
    assert d1 == "1" && d2 == "12" && d3 == "120";
    assert DigitsValue(d1) == 1 by {
      assert d1[..0] == "";
    }
    assert DigitsValue(d2) == 12 by {
      assert d2[..1] == d1;
    }
    assert DigitsValue(d3) == 120 by {
      assert d3[..2] == d2;
    }
  }

  /** A count stat: the value element must be there and hold a count. */
  function CountStat(value: Option<string>, unit: string): (r: Result<int>)
    requires |unit| > 0
    ensures r.Ok? <==> value.Some? && Count(value.value, unit).Some?
    ensures r.Ok? ==> Some(r.value) == Count(value.value, unit)
  {
    var v :- Need(value);
    match Count(v, unit)
    case None => Raised
    case Some(c) => Ok(c)
  }

  /** The larger of two angles is the elevation, the smaller the depression. */
  function OrderGuidance(a: int, b: int): (g: Guidance)
    ensures g.positive >= g.negative
    ensures (g.positive == a && g.negative == b) || (g.positive == b && g.negative == a)
  {
    if a > b then Guidance(a, b) else Guidance(b, a)
  }

  /** The order in which the wiki lists the two angles does not matter. */
  lemma OrderGuidanceSymmetric(a: int, b: int)
    ensures OrderGuidance(a, b) == OrderGuidance(b, a)
  {
  }

  /** The separator between the two guidance angles. */
  const Slash: string := " / "

  /** The vertical-guidance value: degree signs removed, split at " / ", every
      piece an integer; the first two pieces are ordered and a single piece
      raises. */
  function DecodeGuidance(text: string): Result<Guidance> {
    match ParseInts(Split(RemoveChar(text, '\U{00B0}'), Slash))
    case None => Raised
    case Some(g) => if |g| < 2 then Raised else Ok(OrderGuidance(g[0], g[1]))
  }

  /** Two angles written "a° / b°" decode to the ordered pair. */
  lemma DecodeGuidanceText(a: int, b: int)
    ensures DecodeGuidance(IntString(a) + "\U{00B0}" + Slash + IntString(b) + "\U{00B0}") == Ok(OrderGuidance(a, b))
  {
    var x, y := IntString(a), IntString(b);
    IntStringShape(a);
    IntStringShape(b);
    DegreesRemoved(x, y);
    SplitAfter(x, Slash, y);
    NoOccurrence(y, Slash);
    assert Split(x + Slash + y, Slash) == [x, y];
    ParseIntString(a);
    ParseIntString(b);
    ParseIntsPair(x, y);
  }

  /** Removing the degree signs of "x° / y°" leaves "x / y". */
  lemma DegreesRemoved(x: string, y: string)
    requires '\U{00B0}' !in x && '\U{00B0}' !in y
    ensures RemoveChar(x + "\U{00B0}" + Slash + y + "\U{00B0}", '\U{00B0}') == x + Slash + y
  {
    SignsRemoved(x, Slash, y, '\U{00B0}');
  }

  /** Removing the sign `c` after each of two texts joined by `sep`, none of
      which holds it, leaves the join. */
  lemma SignsRemoved(x: string, sep: string, y: string, c: char)
    requires c !in x && c !in sep && c !in y
    ensures RemoveChar(x + [c] + sep + y + [c], c) == x + sep + y
  {
    var s1, s2 := y + [c], sep + (y + [c]);
    assert RemoveChar(s1, c) == y by {
      RemoveAbsentChar(y, c);
      assert RemoveChar([c], c) == [];
      RemoveCharConcat(y, [c], c);
    }
    assert RemoveChar(s2, c) == sep + y by {
      RemoveAbsentChar(sep, c);
      RemoveCharConcat(sep, s1, c);
    }
    assert RemoveChar([c] + s2, c) == sep + y by {
      assert RemoveChar([c], c) == [];
      RemoveCharConcat([c], s2, c);
    }
    assert RemoveChar(x + ([c] + s2), c) == x + (sep + y) by {
      RemoveAbsentChar(x, c);
      RemoveCharConcat(x, [c] + s2, c);
    }
    Regroup(x, [c], sep, y, [c]);
    assert x + (sep + y) == x + sep + y;
  }

  /** Concatenation regrouped to the right. */
  lemma Regroup<T>(a: seq<T>, b: seq<T>, c: seq<T>, d: seq<T>, e: seq<T>)
    ensures a + b + c + d + e == a + (b + (c + (d + e)))
  {
  }

  /** `str(i)` holds neither a space nor a degree sign. */
  lemma IntStringShape(i: int)
    ensures ' ' !in IntString(i) && '\U{00B0}' !in IntString(i)
  {
    var d := if i < 0 then Decimal(-i) else Decimal(i);
    assert forall k :: 0 <= k < |d| ==> IsDigit(d[k]);
    if i < 0 {
      assert IntString(i) == "-" + d;
    }
  }

  /** Without a " / " there is only one angle, and that raises. */
  lemma DecodeGuidanceOneAngle(text: string)
    requires !Contains(RemoveChar(text, '\U{00B0}'), Slash)
    ensures DecodeGuidance(text) == Raised
  {
    var t := RemoveChar(text, '\U{00B0}');
    assert FindFrom(t, Slash, 0).None?;
    assert Split(t, Slash) == [t];
  }

  /** The larger of two reload times is the basic one, the smaller the one
      of an ace crew. */
  function OrderReload(a: real, b: real): (t: ReloadTime)
    ensures t.basic >= t.aces
    ensures (t.basic == a && t.aces == b) || (t.basic == b && t.aces == a)
  {
    if a > b then ReloadTime(a, b) else ReloadTime(b, a)
  }

  /** The characters `rstrip(" s")` removes. */
  const SecondsSuffix: set<char> := {' ', 's'}

  /** The separator between the basic and the ace reload time. */
  const Arrow: string := " \U{2192} "

  /** `[float(x) for x in text.rstrip(" s").split(" → ")]`. */
  function ReloadValues(text: string): Option<seq<real>> {
    ParseReals(Split(StripRight(text, SecondsSuffix), Arrow))
  }

  /** The text the reload times are read from, if its lookup succeeds.
      `Current` prefers the indent line and falls back to the block's own
      value; `Earlier` reads the indent line only. */
  function ReloadSource(rev: Revision, b: StatBlock): Option<string> {
    match b.indent
    case Some(line) => line.value
    case None => if rev == Current then b.value else None
  }

  /** The reload times a "Reload" block leaves in the local `reloads`. In the
      current revision a failed lookup is swallowed and the times of an
      earlier "Reload" block stay (with none, the name is unbound and
      raises); in the earlier revision it raises. A piece that is not a
      number raises in both. */
  function ReloadList(rev: Revision, previous: Option<seq<real>>, b: StatBlock): (r: Result<seq<real>>)
    ensures ReloadSource(rev, b).Some? ==>
      (r.Ok? <==> ReloadValues(ReloadSource(rev, b).value).Some?)
      && (r.Ok? ==> r.value == ReloadValues(ReloadSource(rev, b).value).value)
    ensures ReloadSource(rev, b).None? && rev == Current ==> r == Need(previous)
    ensures ReloadSource(rev, b).None? && rev == Earlier ==> r.Raised?
  {
    match ReloadSource(rev, b)
    case Some(t) => Need(ReloadValues(t))
    case None => if rev == Current then Need(previous) else Raised
  }

  /** The reload times applied to the stats. Two or more: the first two,
      ordered, and the autoloader flag untouched. In the current revision,
      exactly one: an autoloader whose basic and ace times are both that
      one. Anything else raises. */
  function ApplyReloads(rev: Revision, s: WeaponStats, rs: seq<real>): (r: Result<WeaponStats>)
    ensures r.Ok? <==> |rs| >= 2 || (rev == Current && |rs| == 1)
    ensures r.Ok? ==> r.value.(reloadTime := s.reloadTime, autoloader := s.autoloader) == s
    ensures |rs| >= 2 ==> r.Ok? && r.value.reloadTime == OrderReload(rs[0], rs[1]) && r.value.autoloader == s.autoloader
    ensures rev == Current && |rs| == 1 ==>
      r.Ok? && r.value.autoloader && r.value.reloadTime == ReloadTime(rs[0], rs[0])
  {
    if |rs| > 1 then Ok(s.(reloadTime := OrderReload(rs[0], rs[1])))
    else if rev == Current && |rs| == 1 then Ok(s.(autoloader := true, reloadTime := ReloadTime(rs[0], rs[0])))
    else Raised
  }

  /** The earlier revision never sets the autoloader flag. */
  lemma EarlierNoAutoloader(s: WeaponStats, rs: seq<real>)
    requires ApplyReloads(Earlier, s, rs).Ok?
    ensures ApplyReloads(Earlier, s, rs).value.autoloader == s.autoloader
    ensures |rs| >= 2
  {
  }

  // ---------------------------------------------------------------------
  // The stat blocks.

  /** What the stat loop carries: the gun's stats and the local `reloads`. */
  datatype Decoding = Decoding(stats: WeaponStats, reloads: Option<seq<real>>)

  /** Where the stat loop starts. */
  const Start: Decoding := Decoding(DefaultStats, None)

  /** The stat names the decoder acts on. */
  const StatNames: set<string> :=
    {"Belt capacity", "Ammunition", "Fire rate", "First-order", "Vertical guidance", "Reload"}

  /** What a stat block's (compared) name asks for. */
  datatype StatKind =
    | BeltCapacityStat | AmmunitionStat | FireRateStat | FirstOrderStat
    | GuidanceStat | ReloadStat | OtherStat
  {
    predicate IsCount() {
      this in {BeltCapacityStat, AmmunitionStat, FireRateStat, FirstOrderStat}
    }
  }

  /** The `if`/`elif` chain on the stat name. */
  function KindOf(title: string): StatKind {
    if title == "Belt capacity" then BeltCapacityStat
    else if title == "Ammunition" then AmmunitionStat
    else if title == "Fire rate" then FireRateStat
    else if title == "First-order" then FirstOrderStat
    else if title == "Vertical guidance" then GuidanceStat
    else if title == "Reload" then ReloadStat
    else OtherStat
  }

  /** Exactly the six stat names are acted on. */
  lemma KindOfNames(title: string)
    ensures KindOf(title) == OtherStat <==> title !in StatNames
  {
  }

  /** The unit a count is written with: fire rates in shots, the rest in rounds. */
  function UnitOf(k: StatKind): (u: string)
    ensures |u| > 0
  {
    if k == FireRateStat then " shots" else " rounds"
  }

  /** The attribute a count goes to. */
  function WithCount(s: WeaponStats, k: StatKind, c: int): (r: WeaponStats)
    requires k.IsCount()
    ensures k == BeltCapacityStat ==> r == s.(beltCapacity := c)
    ensures k == AmmunitionStat ==> r == s.(capacity := c)
    ensures k == FireRateStat ==> r == s.(fireRate := c)
    ensures k == FirstOrderStat ==> r == s.(firstStowage := c)
  {
    match k
    case BeltCapacityStat => s.(beltCapacity := c)
    case AmmunitionStat => s.(capacity := c)
    case FireRateStat => s.(fireRate := c)
    case FirstOrderStat => s.(firstStowage := c)
  }

  /** One stat block of a known kind. A count or the guidance needs the
      value element and a value that converts; a reload needs times. */
  function KindStep(rev: Revision, k: StatKind, d: Decoding, b: StatBlock): Result<Decoding> {
    match k
    case GuidanceStat =>
      var v :- Need(b.value);
      var g :- DecodeGuidance(v);
      Ok(d.(stats := d.stats.(verticalGuidance := g)))
    case ReloadStat =>
      var rs :- ReloadList(rev, d.reloads, b);
      var s :- ApplyReloads(rev, d.stats, rs);
      Ok(Decoding(s, Some(rs)))
    case OtherStat => Ok(d)
    case _ =>
      var c :- CountStat(b.value, UnitOf(k));
      Ok(d.(stats := WithCount(d.stats, k, c)))
  }

  /** One `specs_char_block`. Its name must be there; a recognised name sets
      its own attribute, any other name changes nothing. */
  function StatStep(rev: Revision, d: Decoding, b: StatBlock): Result<Decoding> {
    var n :- Need(b.name);
    KindStep(rev, KindOf(Norm(rev, n)), d, b)
  }

  /** A block without a name raises; a block whose name is not one of the
      six leaves everything as it was. */
  lemma StatStepOther(rev: Revision, d: Decoding, b: StatBlock)
    ensures b.name.None? ==> StatStep(rev, d, b).Raised?
    ensures b.name.Some? && Norm(rev, b.name.value) !in StatNames ==> StatStep(rev, d, b) == Ok(d)
  {
    if b.name.Some? {
      var title := Norm(rev, b.name.value);
      KindOfNames(title);
      if title !in StatNames {
        assert KindStep(rev, OtherStat, d, b) == Ok(d);
      }
    }
  }

  /** A count block sets its own attribute to its count, keeps everything
      else, and raises when the value is missing or holds no count. */
  lemma StatStepCount(rev: Revision, d: Decoding, b: StatBlock)
    requires b.name.Some? && KindOf(Norm(rev, b.name.value)).IsCount()
    ensures var k := KindOf(Norm(rev, b.name.value));
      (StatStep(rev, d, b).Ok? <==> b.value.Some? && Count(b.value.value, UnitOf(k)).Some?)
      && (StatStep(rev, d, b).Ok? ==>
            StatStep(rev, d, b).value == d.(stats := WithCount(d.stats, k, Count(b.value.value, UnitOf(k)).value)))
  {
  }

  /** A "Reload" block in the current revision whose lookup fails reuses the
      times of an earlier "Reload" block, and raises when there was none. */
  lemma ReloadFallback(d: Decoding, b: StatBlock)
    requires b.name.Some? && KindOf(Trim(b.name.value)) == ReloadStat && ReloadSource(Current, b).None?
    ensures d.reloads.None? ==> StatStep(Current, d, b).Raised?
    ensures d.reloads.Some? && ApplyReloads(Current, d.stats, d.reloads.value).Raised? ==>
      StatStep(Current, d, b).Raised?
    ensures d.reloads.Some? && ApplyReloads(Current, d.stats, d.reloads.value).Ok? ==>
      StatStep(Current, d, b) == Ok(Decoding(ApplyReloads(Current, d.stats, d.reloads.value).value, d.reloads))
  {
  }

  /** The stat step as a function value, for the loop over the blocks. */
  function StatStepOf(rev: Revision): (Decoding, StatBlock) -> Result<Decoding> {
    (d, b) => StatStep(rev, d, b)
  }

  /** The stat loop over all blocks, in order. */
  function DecodeStats(rev: Revision, blocks: seq<StatBlock>): Result<Decoding> {
    FoldAll(StatStepOf(rev), Start, blocks)
  }

  /** Blocks that all carry other names leave the class defaults. */
  lemma DecodeStatsDefaults(rev: Revision, blocks: seq<StatBlock>)
    requires forall i :: 0 <= i < |blocks| ==> blocks[i].name.Some? && Norm(rev, blocks[i].name.value) !in StatNames
    ensures DecodeStats(rev, blocks) == Ok(Start)
  {
    forall i | 0 <= i < |blocks|
      ensures StatStepOf(rev)(Start, blocks[i]) == Ok(Start)
    {
      StatStepOther(rev, Start, blocks[i]);
    }
    FoldAllIdle(StatStepOf(rev), Start, blocks);
  }

  // ---------------------------------------------------------------------
  // The stabilizer features (current revision only).

  /** The stabilizer a `feature_name` text names, compared after trimming:
      "Autoloader" and every other text name none. */
  function StabilizerOf(feature: string): Option<Stabilizer> {
    var t := Trim(feature);
    if t == "Autoloader" then None
    else if t == "Two-plane stabilizer" then Some(TwoPlane)
    else if t == "Vertical stabilizer" then Some(Vertical)
    else if t == "Shoulder stabilizer" then Some(Shoulder)
    else None
  }

  /** The stabilizer after the features, in order, starting from `s`. */
  function StabilizerAfter(s: Stabilizer, features: seq<string>): Stabilizer {
    if |features| == 0 then s
    else
      match StabilizerOf(features[|features| - 1])
      case Some(t) => t
      case None => StabilizerAfter(s, features[..|features| - 1])
  }

  /** One more feature of the loop. */
  lemma StabilizerStep(s: Stabilizer, features: seq<string>, j: nat)
    requires j < |features|
    ensures StabilizerAfter(s, features[..j + 1]) ==
      if StabilizerOf(features[j]).Some? then StabilizerOf(features[j]).value else StabilizerAfter(s, features[..j])
  {
    assert features[..j + 1][..j] == features[..j];
  }

  /** Features that name no stabilizer leave it unchanged. */
  lemma {:induction false} StabilizerUnchanged(s: Stabilizer, features: seq<string>)
    requires forall k :: 0 <= k < |features| ==> StabilizerOf(features[k]).None?
    ensures StabilizerAfter(s, features) == s
  {
    if |features| > 0 {
      StabilizerUnchanged(s, features[..|features| - 1]);
    }
  }

  /** The last feature that names a stabilizer decides it. */
  lemma {:induction false} StabilizerLastWins(s: Stabilizer, features: seq<string>, j: nat)
    requires j < |features| && StabilizerOf(features[j]).Some?
    requires forall k :: j < k < |features| ==> StabilizerOf(features[k]).None?
    ensures StabilizerAfter(s, features) == StabilizerOf(features[j]).value
  {
    if j < |features| - 1 {
      StabilizerLastWins(s, features[..|features| - 1], j);
    }
  }

  // ---------------------------------------------------------------------
  // The whole block.

  /** The name and attributes `parse_ground_armaments` gives a gun. */
  function DecodeArmament(rev: Revision, w: WeaponBlock): Result<(string, WeaponStats)> {
    var name :- ArmamentName(rev, w.nameElement);
    var d :- DecodeStats(rev, w.stats);
    var s := if rev == Current then d.stats.(stabilizer := StabilizerAfter(d.stats.stabilizer, w.features)) else d.stats;
    Ok((name, s))
  }

  /** A count written to the attribute of its kind. */
  method SetCount(a: Armament, k: StatKind, c: int)
    requires k.IsCount()
    modifies a`beltCapacity, a`capacity, a`fireRate, a`firstStowage
    ensures a.Stats() == WithCount(old(a.Stats()), k, c)
  {
    if k == BeltCapacityStat {
      a.beltCapacity := c;
    } else if k == AmmunitionStat {
      a.capacity := c;
    } else if k == FireRateStat {
      a.fireRate := c;
    } else {
      a.firstStowage := c;
    }
  }

  /** A count block of kind `k`, in terms of its count. */
  lemma KindStepCount(rev: Revision, k: StatKind, d: Decoding, b: StatBlock)
    requires k.IsCount()
    ensures CountStat(b.value, UnitOf(k)).Raised? ==> KindStep(rev, k, d, b).Raised?
    ensures CountStat(b.value, UnitOf(k)).Ok? ==>
      KindStep(rev, k, d, b) == Ok(d.(stats := WithCount(d.stats, k, CountStat(b.value, UnitOf(k)).value)))
  {
  }

  /** A count block applied to the gun object. */
  method ApplyCount(rev: Revision, k: StatKind, a: Armament, b: StatBlock, reloads: Option<seq<real>>) returns (ok: bool)
    requires k.IsCount()
    modifies a`beltCapacity, a`capacity, a`fireRate, a`firstStowage
    ensures ok <==> KindStep(rev, k, Decoding(old(a.Stats()), reloads), b).Ok?
    ensures ok ==> Decoding(a.Stats(), reloads) == KindStep(rev, k, Decoding(old(a.Stats()), reloads), b).value
  {
    KindStepCount(rev, k, Decoding(a.Stats(), reloads), b);
    var c := CountStat(b.value, UnitOf(k));
    if c.Raised? {
      return false;
    }
    SetCount(a, k, c.value);
    ok := true;
  }

  /** A "Vertical guidance" block applied to the gun object. */
  method ApplyGuidance(rev: Revision, a: Armament, b: StatBlock, reloads: Option<seq<real>>) returns (ok: bool)
    modifies a`verticalGuidance
    ensures ok <==> KindStep(rev, GuidanceStat, Decoding(old(a.Stats()), reloads), b).Ok?
    ensures ok ==> Decoding(a.Stats(), reloads) == KindStep(rev, GuidanceStat, Decoding(old(a.Stats()), reloads), b).value
  {
    if b.value.None? {
      return false;
    }
    var g := DecodeGuidance(b.value.value);
    if g.Raised? {
      return false;
    }
    a.verticalGuidance := g.value;
    ok := true;
  }

  /** A "Reload" block in terms of the times it reads. */
  lemma KindStepReload(rev: Revision, d: Decoding, b: StatBlock)
    ensures ReloadList(rev, d.reloads, b).Raised? ==> KindStep(rev, ReloadStat, d, b).Raised?
    ensures ReloadList(rev, d.reloads, b).Ok? ==>
      var rs := ReloadList(rev, d.reloads, b).value;
      (KindStep(rev, ReloadStat, d, b).Ok? <==> ApplyReloads(rev, d.stats, rs).Ok?)
      && (KindStep(rev, ReloadStat, d, b).Ok? ==>
            KindStep(rev, ReloadStat, d, b).value == Decoding(ApplyReloads(rev, d.stats, rs).value, Some(rs)))
  {
  }

  /** Reload times written to the gun object. */
  method SetReloads(rev: Revision, a: Armament, rs: seq<real>) returns (ok: bool)
    modifies a`reloadTime, a`autoloader
    ensures ok <==> ApplyReloads(rev, old(a.Stats()), rs).Ok?
    ensures ok ==> a.Stats() == ApplyReloads(rev, old(a.Stats()), rs).value
  {
    if |rs| > 1 {
      a.reloadTime := OrderReload(rs[0], rs[1]);
    } else if rev == Current && |rs| == 1 {
      a.autoloader := true;
      a.reloadTime := ReloadTime(rs[0], rs[0]);
    } else {
      return false;
    }
    ok := true;
  }

  /** A "Reload" block applied to the gun object and the local `reloads`. */
  method ApplyReload(rev: Revision, a: Armament, b: StatBlock, reloads: Option<seq<real>>)
      returns (ok: bool, next: Option<seq<real>>)
    modifies a`reloadTime, a`autoloader
    ensures ok <==> KindStep(rev, ReloadStat, Decoding(old(a.Stats()), reloads), b).Ok?
    ensures ok ==> Decoding(a.Stats(), next) == KindStep(rev, ReloadStat, Decoding(old(a.Stats()), reloads), b).value
  {
    KindStepReload(rev, Decoding(a.Stats(), reloads), b);
    next := reloads;
    var rs := ReloadList(rev, reloads, b);
    if rs.Raised? {
      return false, next;
    }
    ok := SetReloads(rev, a, rs.value);
    if ok {
      next := Some(rs.value);
    }
  }

  /** One stat block applied to the gun object; nothing is written when the
      block raises. */
  method ApplyStat(rev: Revision, a: Armament, b: StatBlock, reloads: Option<seq<real>>)
      returns (ok: bool, next: Option<seq<real>>)
    modifies a`beltCapacity, a`capacity, a`fireRate, a`firstStowage
    modifies a`verticalGuidance, a`reloadTime, a`autoloader
    ensures ok <==> StatStep(rev, Decoding(old(a.Stats()), reloads), b).Ok?
    ensures ok ==> Decoding(a.Stats(), next) == StatStep(rev, Decoding(old(a.Stats()), reloads), b).value
  {
    next := reloads;
    if b.name.None? {
      return false, next;
    }
    var k := KindOf(Norm(rev, b.name.value));
    if k.IsCount() {
      ok := ApplyCount(rev, k, a, b, reloads);
    } else if k == GuidanceStat {
      ok := ApplyGuidance(rev, a, b, reloads);
    } else if k == ReloadStat {
      ok, next := ApplyReload(rev, a, b, reloads);
    } else {
      ok := true;
    }
  }

  /** The stat loop of `parse_ground_armaments` on the gun object. */
  method ApplyStats(rev: Revision, a: Armament, blocks: seq<StatBlock>) returns (ok: bool)
    modifies a`beltCapacity, a`capacity, a`fireRate, a`firstStowage
    modifies a`verticalGuidance, a`reloadTime, a`autoloader
    ensures ok <==> FoldAll(StatStepOf(rev), Decoding(old(a.Stats()), None), blocks).Ok?
    ensures ok ==> a.Stats() == FoldAll(StatStepOf(rev), Decoding(old(a.Stats()), None), blocks).value.stats
  {
    ghost var goal := FoldAll(StatStepOf(rev), Decoding(a.Stats(), None), blocks);
    var reloads: Option<seq<real>> := None;
    var i := 0;
    assert blocks[0..] == blocks;
    while i < |blocks|
      invariant i <= |blocks|
      invariant goal == FoldAll(StatStepOf(rev), Decoding(a.Stats(), reloads), blocks[i..])
    {
      FoldAllStep(StatStepOf(rev), Decoding(a.Stats(), reloads), blocks, i);
      ok, reloads := ApplyStat(rev, a, blocks[i], reloads);
      if !ok {
        return false;
      }
      i := i + 1;
    }
    assert blocks[i..] == [];
    ok := true;
  }

  /** The feature loop of `parse_ground_armaments` on the gun object. */
  method ApplyFeatures(a: Armament, features: seq<string>)
    modifies a`stabilizer
    ensures a.stabilizer == StabilizerAfter(old(a.stabilizer), features)
  {
    var j := 0;
    while j < |features|
      invariant j <= |features|
      invariant a.stabilizer == StabilizerAfter(old(a.stabilizer), features[..j])
    {
      StabilizerStep(old(a.stabilizer), features, j);
      var s := StabilizerOf(features[j]);
      if s.Some? {
        a.stabilizer := s.value;
      }
      j := j + 1;
    }
    assert features[..j] == features;
  }

  /** The whole block in terms of its name and its stat loop. */
  lemma DecodeArmamentOf(rev: Revision, w: WeaponBlock)
    ensures ArmamentName(rev, w.nameElement).Raised? || DecodeStats(rev, w.stats).Raised? ==>
      DecodeArmament(rev, w).Raised?
    ensures ArmamentName(rev, w.nameElement).Ok? && DecodeStats(rev, w.stats).Ok? ==>
      var s := DecodeStats(rev, w.stats).value.stats;
      DecodeArmament(rev, w) == Ok((ArmamentName(rev, w.nameElement).value,
        if rev == Current then s.(stabilizer := StabilizerAfter(s.stabilizer, w.features)) else s))
  {
  }

  /** The attributes of `parse_ground_armaments` decoded into a fresh gun
      object, which still holds the class defaults. */
  method DecodeInto(rev: Revision, a: Armament, w: WeaponBlock) returns (ok: bool)
    requires a.Stats() == DefaultStats
    modifies a`beltCapacity, a`capacity, a`fireRate, a`firstStowage
    modifies a`verticalGuidance, a`reloadTime, a`autoloader, a`stabilizer
    ensures ok <==> DecodeStats(rev, w.stats).Ok?
    ensures ok ==> var s := DecodeStats(rev, w.stats).value.stats;
      a.Stats() == if rev == Current then s.(stabilizer := StabilizerAfter(s.stabilizer, w.features)) else s
  {
    assert Decoding(a.Stats(), None) == Start;
    ok := ApplyStats(rev, a, w.stats);
    if ok && rev == Current {
      ApplyFeatures(a, w.features);
    }
  }

  /** `parse_ground_armaments`: a new gun named from the block, its stats set
      block by block and, in the current revision, its stabilizer set feature
      by feature. */
  method ParseArmament(rev: Revision, w: WeaponBlock) returns (r: Result<Armament>)
    ensures r.Ok? <==> DecodeArmament(rev, w).Ok?
    ensures r.Ok? ==> fresh(r.value) && r.value.ammoTypes == []
    ensures r.Ok? ==> (r.value.name, r.value.Stats()) == DecodeArmament(rev, w).value
  {
    DecodeArmamentOf(rev, w);
    var name := ArmamentName(rev, w.nameElement);
    if name.Raised? {
      return Raised;
    }
    var a := new Armament(name.value);
    var ok := DecodeInto(rev, a, w);
    if !ok {
      return Raised;
    }
    r := Ok(a);
  }
}
