/** The two ammunition tables of a gun: "Penetration statistics", which
    creates the rounds, and "Shell details", which fills in their ballistics
    (`parse_ground_ammunitions_pen` and `parse_ground_ammunitions_stats`). */
module AmmoTables {
  import opened Wrappers
  import opened Text
  import opened Numbers
  import opened Collections
  import opened Markup
  import opened Ammunitions

  /** The distances of the penetration table, in column order from cell 2. */
  const DistanceKeys: seq<string> := ["10", "100", "500", "1000", "1500", "2000"]

  /** One body row of the penetration table: cell 0 is the name, cell 1 the
      type, and every cell from 2 on must be an integer; the first six of
      those are paired with the distances. */
  function PenRow(rev: Revision, cells: seq<string>): Result<Round> {
    if |cells| < 2 then Raised
    else
      match ParseInts(cells[2..])
      case None => Raised
      case Some(pens) => Ok(NewRound(Norm(rev, cells[0]), Norm(rev, cells[1]), DictOf(Zip(DistanceKeys, pens))))
  }

  /** The conversion `parse_ground_ammunitions_pen` applies to each row. */
  function PenRowOf(rev: Revision): seq<string> -> Result<Round> {
    cells => PenRow(rev, cells)
  }

  /** `parse_ground_ammunitions_pen`: one round per row after the three
      header rows, in row order; the first row that does not convert raises. */
  function PenTable(rev: Revision, t: Table): Result<seq<Round>> {
    MapAll(PenRowOf(rev), Body(t.rows))
  }

  /** The penetration pass succeeds exactly when every body row converts. */
  lemma PenTableOk(rev: Revision, t: Table)
    ensures PenTable(rev, t).Ok? <==> forall i :: 0 <= i < |Body(t.rows)| ==> PenRow(rev, Body(t.rows)[i]).Ok?
  {
    MapAllOk(PenRowOf(rev), Body(t.rows));
  }

  lemma DistanceKeysDistinct()
    ensures Distinct(DistanceKeys)
  {
  }

  /** A row that converts has a name and a type cell; its round takes its
      name and type from cells 0 and 1, and every other attribute except the
      penetration table is that of a fresh round. */
  lemma PenRowIdentity(rev: Revision, cells: seq<string>)
    requires PenRow(rev, cells).Ok?
    ensures var x := PenRow(rev, cells).value;
      |cells| >= 2
      && x.name == Norm(rev, cells[0]) && x.ammoType == Norm(rev, cells[1])
      && x.details == DefaultDetails && x.fuseSensitivity == None && x.range == None
  {
  }

  /** How many distances the penetration table of a row gets: one per cell
      from column 2 on, at most six. */
  function DistanceCount(cells: seq<string>): nat {
    if |cells| < 2 then 0 else if |cells| - 2 < 6 then |cells| - 2 else 6
  }

  /** The penetration table of a row that converts has the first
      `DistanceCount(cells)` of "10", "100", "500", "1000", "1500", "2000" as
      its keys. */
  lemma PenRowKeys(rev: Revision, cells: seq<string>)
    requires PenRow(rev, cells).Ok?
    ensures PenRow(rev, cells).value.pen.Keys == (set k | 0 <= k < DistanceCount(cells) :: DistanceKeys[k])
  {
    DistanceKeysDistinct();
    ZipDict(DistanceKeys, ParseInts(cells[2..]).value);
  }

  /** The distance in column `k + 2` maps to the integer in that cell. */
  lemma PenRowDistance(rev: Revision, cells: seq<string>, k: nat)
    requires PenRow(rev, cells).Ok? && k < DistanceCount(cells)
    ensures DistanceKeys[k] in PenRow(rev, cells).value.pen
    ensures Some(PenRow(rev, cells).value.pen[DistanceKeys[k]]) == ParseInt(cells[k + 2])
  {
    var pens := ParseInts(cells[2..]).value;
    DistanceKeysDistinct();
    ZipDict(DistanceKeys, pens);
    ParseIntsAt(cells[2..], k);
    assert cells[2..][k] == cells[k + 2];
  }

  /** Every round of a successful penetration pass comes from its own body
      row, in row order: round `i` is the round of row `i`. */
  lemma PenTableRound(rev: Revision, t: Table, i: nat)
    requires PenTable(rev, t).Ok? && i < |Body(t.rows)|
    ensures |PenTable(rev, t).value| == |Body(t.rows)|
    ensures PenRow(rev, Body(t.rows)[i]).Ok?
    ensures PenTable(rev, t).value[i] == PenRow(rev, Body(t.rows)[i]).value
  {
    MapAllAt(PenRowOf(rev), Body(t.rows), i);
  }

  /** A shell-details cell that says "N/A" (compared after trimming in the
      current revision, exactly in the earlier one). */
  predicate NotApplicable(rev: Revision, cell: string) {
    Norm(rev, cell) == "N/A"
  }

  /** A fuse or explosive cell converts: it says "N/A" or holds a number
      (`text` is the cell with the separators the source removes dropped). */
  predicate CellConverts(rev: Revision, cell: string, text: string) {
    NotApplicable(rev, cell) || ParseReal(text).Some?
  }

  /** A fuse or explosive attribute after its cell: kept when the cell says
      "N/A", otherwise the number in `text`. */
  function OptionalCell(rev: Revision, cell: string, text: string, previous: Option<real>): (r: Option<real>)
    requires CellConverts(rev, cell, text)
    ensures NotApplicable(rev, cell) ==> r == previous
    ensures !NotApplicable(rev, cell) ==> r.Some? && r == ParseReal(text)
  {
    if NotApplicable(rev, cell) then previous else ParseReal(text)
  }

  /** Every cell of a shell-details row that the pass converts does convert:
      there are at least seven cells, cell 2 is an integer and cell 3 a
      number once thousands separators are removed, cells 4, 5 and 6 are
      "N/A" or numbers (cell 6 without separators), and the cells from 7 on
      are integers once degree signs are removed. */
  predicate ShellRowConverts(rev: Revision, row: seq<string>) {
    |row| >= 7
    && ParseInt(RemoveChar(row[2], ',')).Some?
    && ParseReal(RemoveChar(row[3], ',')).Some?
    && ParseInts(RemoveCharEach(row[7..], '\U{00B0}')).Some?
    && CellConverts(rev, row[4], row[4])
    && CellConverts(rev, row[5], row[5])
    && CellConverts(rev, row[6], RemoveChar(row[6], ','))
  }

  /** One shell-details row applied to the details of a round it names:
      the velocity, projectile mass and ricochet table are replaced (the
      ricochet keys zipped with the angles from cell 7 on), and each of the
      fuse delay, fuse sensitivity and explosive mass is replaced unless its
      cell says "N/A". Any cell that does not convert raises. */
  function ShellRowUpdate(rev: Revision, d: ShellDetails, row: seq<string>): (r: Result<ShellDetails>)
    ensures r.Ok? <==> ShellRowConverts(rev, row)
    ensures r.Ok? ==> Some(r.value.velocity) == ParseInt(RemoveChar(row[2], ','))
    ensures r.Ok? ==> Some(r.value.projectileMass) == ParseReal(RemoveChar(row[3], ','))
    ensures r.Ok? ==> r.value.ricochet == DictOf(Zip(RicochetKeys, ParseInts(RemoveCharEach(row[7..], '\U{00B0}')).value))
    ensures r.Ok? ==> r.value.fuseDelay == if NotApplicable(rev, row[4]) then d.fuseDelay else ParseReal(row[4])
    ensures r.Ok? ==> r.value.fuseSensetivity == if NotApplicable(rev, row[5]) then d.fuseSensetivity else ParseReal(row[5])
    ensures r.Ok? ==> r.value.explosiveMass == if NotApplicable(rev, row[6]) then d.explosiveMass else ParseReal(RemoveChar(row[6], ','))
  {
    if !ShellRowConverts(rev, row) then Raised
    else
      Ok(ShellDetails(
        DictOf(Zip(RicochetKeys, ParseInts(RemoveCharEach(row[7..], '\U{00B0}')).value)),
        ParseInt(RemoveChar(row[2], ',')).value,
        ParseReal(RemoveChar(row[3], ',')).value,
        OptionalCell(rev, row[4], row[4], d.fuseDelay),
        OptionalCell(rev, row[5], row[5], d.fuseSensetivity),
        OptionalCell(rev, row[6], RemoveChar(row[6], ','), d.explosiveMass)))
  }

  /** The row names the round: its first cell equals the round's name. */
  predicate Names(rev: Revision, row: seq<string>, name: string) {
    |row| > 0 && Norm(rev, row[0]) == name
  }

  /** One row applied to one round: a row without cells fails, a row that
      names another round leaves it alone. */
  function RoundRow(rev: Revision, row: seq<string>, x: Round): Result<Round> {
    if |row| == 0 then Raised
    else if !Names(rev, row, x.name) then Ok(x)
    else
      match ShellRowUpdate(rev, x.details, row)
      case Raised => Raised
      case Ok(d) => Ok(x.(details := d))
  }

  /** The conversion one row applies to each round. */
  function RoundRowOf(rev: Revision, row: seq<string>): Round -> Result<Round> {
    x => RoundRow(rev, row, x)
  }

  /** One row applied to every round of the list, in list order. */
  function ShellRow(rev: Revision, row: seq<string>, xs: seq<Round>): Result<seq<Round>> {
    MapAll(RoundRowOf(rev, row), xs)
  }

  /** A row fails exactly when it fails for some round. */
  lemma ShellRowOk(rev: Revision, row: seq<string>, xs: seq<Round>)
    ensures ShellRow(rev, row, xs).Ok? <==> forall i :: 0 <= i < |xs| ==> RoundRow(rev, row, xs[i]).Ok?
  {
    MapAllOk(RoundRowOf(rev, row), xs);
  }

  /** A successful row treats each round on its own: round `i` afterwards
      is round `i` with the row applied. */
  lemma ShellRowAt(rev: Revision, row: seq<string>, xs: seq<Round>, i: nat)
    requires ShellRow(rev, row, xs).Ok? && i < |xs|
    ensures |ShellRow(rev, row, xs).value| == |xs|
    ensures RoundRow(rev, row, xs[i]).Ok? && ShellRow(rev, row, xs).value[i] == RoundRow(rev, row, xs[i]).value
  {
    MapAllAt(RoundRowOf(rev, row), xs, i);
  }

  /** The attributes the shell-details pass never changes. */
  predicate SameIdentity(x: Round, y: Round) {
    x.name == y.name && x.ammoType == y.ammoType && x.pen == y.pen
    && x.fuseSensitivity == y.fuseSensitivity && x.range == y.range
  }

  /** The conversion one row applies to the whole list. */
  function ShellRowOf(rev: Revision): (seq<Round>, seq<string>) -> Result<seq<Round>> {
    (xs, row) => ShellRow(rev, row, xs)
  }

  /** The rows in order, each applied to the whole list. */
  function ShellRows(rev: Revision, rows: seq<seq<string>>, xs: seq<Round>): Result<seq<Round>> {
    FoldAll(ShellRowOf(rev), xs, rows)
  }

  /** `parse_ground_ammunitions_stats` on a list of rounds. */
  function ShellTable(rev: Revision, t: Table, xs: seq<Round>): Result<seq<Round>> {
    ShellRows(rev, Body(t.rows), xs)
  }

  /** The shell-details pass never changes the number of rounds or their
      order, and round `i` keeps its name, type and penetration table. */
  lemma {:induction false} ShellRowsIdentity(rev: Revision, rows: seq<seq<string>>, xs: seq<Round>, i: nat)
    requires ShellRows(rev, rows, xs).Ok? && i < |xs|
    ensures |ShellRows(rev, rows, xs).value| == |xs|
    ensures SameIdentity(ShellRows(rev, rows, xs).value[i], xs[i])
  {
    if |rows| > 0 {
      ShellRowAt(rev, rows[0], xs, i);
      var ys := ShellRow(rev, rows[0], xs).value;
      ShellRowsIdentity(rev, rows[1..], ys, i);
    }
  }

  /** A round that no row names comes out exactly as it went in. */
  lemma {:induction false} UnnamedRoundUntouched(rev: Revision, rows: seq<seq<string>>, xs: seq<Round>, i: nat)
    requires i < |xs|
    requires forall k :: 0 <= k < |rows| ==> !Names(rev, rows[k], xs[i].name)
    requires ShellRows(rev, rows, xs).Ok?
    ensures |ShellRows(rev, rows, xs).value| == |xs|
    ensures ShellRows(rev, rows, xs).value[i] == xs[i]
  {
    if |rows| > 0 {
      ShellRowAt(rev, rows[0], xs, i);
      var ys := ShellRow(rev, rows[0], xs).value;
      assert ys[i] == xs[i];
      UnnamedRoundUntouched(rev, rows[1..], ys, i);
    }
  }

  /** "N/A" in the fuse-delay, fuse-sensitivity and explosive-mass cells of
      a row keeps those three attributes of the round it names. */
  lemma NotApplicableKeeps(rev: Revision, row: seq<string>, x: Round)
    requires Names(rev, row, x.name) && RoundRow(rev, row, x).Ok?
    requires NotApplicable(rev, row[4]) && NotApplicable(rev, row[5]) && NotApplicable(rev, row[6])
    ensures var y := RoundRow(rev, row, x).value;
      y.details.fuseDelay == x.details.fuseDelay
      && y.details.fuseSensetivity == x.details.fuseSensetivity
      && y.details.explosiveMass == x.details.explosiveMass
  {
  }

  // ---------------------------------------------------------------------
  // The passes on the objects themselves.

  /** The objects hold the values, element by element. */
  predicate Holds(objs: seq<Ammunition>, values: seq<Round>)
    reads objs
  {
    |objs| == |values| && forall k :: 0 <= k < |objs| ==> objs[k].Snapshot() == values[k]
  }

  lemma HoldsSnoc(objs: seq<Ammunition>, values: seq<Round>, a: Ammunition, x: Round)
    requires Holds(objs, values) && a.Snapshot() == x
    ensures Holds(objs + [a], values + [x])
  {
  }

  lemma HoldsSnapshots(objs: seq<Ammunition>, values: seq<Round>)
    requires Holds(objs, values)
    ensures Snapshots(objs) == values
  {
  }

  /** `ammunitions.append(Ammunition(...))`: a fresh object holding a newly
      parsed round goes at the end of the list. */
  method AppendNew(parsed: seq<Ammunition>, ghost values: seq<Round>, x: Round) returns (parsed': seq<Ammunition>)
    requires x == NewRound(x.name, x.ammoType, x.pen)
    requires Holds(parsed, values) && Distinct(parsed)
    ensures |parsed'| == |parsed| + 1 && parsed'[..|parsed|] == parsed && fresh(parsed'[|parsed|])
    ensures Holds(parsed', values + [x]) && Distinct(parsed')
  {
    var a := new Ammunition(x.name, x.ammoType, x.pen);
    HoldsSnoc(parsed, values, a, x);
    DistinctSnoc(parsed, a);
    parsed' := parsed + [a];
    assert parsed'[..|parsed|] == parsed;
  }

  /** `parse_ground_ammunitions_pen`: one fresh round per body row. */
  method ParsePenetration(rev: Revision, t: Table) returns (r: Result<seq<Ammunition>>)
    ensures r.Ok? <==> PenTable(rev, t).Ok?
    ensures r.Ok? ==> Snapshots(r.value) == PenTable(rev, t).value
    ensures r.Ok? ==> Distinct(r.value) && forall j :: 0 <= j < |r.value| ==> fresh(r.value[j])
  {
    var rows := Body(t.rows);
    var parsed: seq<Ammunition> := [];
    ghost var values: seq<Round> := [];
    var i := 0;
    assert rows[0..] == rows;
    PrependNothing(PenTable(rev, t));
    while i < |rows|
      invariant i <= |rows| && |values| == i
      invariant Holds(parsed, values) && Distinct(parsed)
      invariant forall j :: 0 <= j < |parsed| ==> fresh(parsed[j])
      invariant PenTable(rev, t) == Prepend(values, MapAll(PenRowOf(rev), rows[i..]))
    {
      MapAllStep(PenRowOf(rev), rows, i);
      var x := PenRow(rev, rows[i]);
      if x.Raised? {
        return Raised;
      }
      PrependTwice(values, [x.value], MapAll(PenRowOf(rev), rows[i + 1..]));
      parsed := AppendNew(parsed, values, x.value);
      values := values + [x.value];
      i := i + 1;
    }
    assert rows[i..] == [];
    assert values + [] == values;
    HoldsSnapshots(parsed, values);
    r := Ok(parsed);
  }

  /** One row applied to one round object; nothing is written unless the
      whole row converts. */
  method ApplyShellRow(rev: Revision, a: Ammunition, row: seq<string>) returns (ok: bool)
    modifies a
    ensures ok <==> RoundRow(rev, row, old(a.Snapshot())).Ok?
    ensures ok ==> a.Snapshot() == RoundRow(rev, row, old(a.Snapshot())).value
    ensures !ok ==> a.Snapshot() == old(a.Snapshot())
  {
    if |row| == 0 {
      return false;
    }
    if Norm(rev, row[0]) != a.name {
      return true;
    }
    var d := ShellRowUpdate(rev, a.Details(), row);
    if d.Raised? {
      return false;
    }
    a.SetDetails(d.value);
    ok := true;
  }

  /** One row applied to the round at slot `j`; the other slots, holding
      other objects, keep their rounds. */
  method ApplyShellRowAt(rev: Revision, row: seq<string>, ammo: seq<Ammunition>, j: nat) returns (ok: bool)
    requires Distinct(ammo) && j < |ammo|
    modifies ammo[j]
    ensures ok <==> RoundRow(rev, row, old(ammo[j].Snapshot())).Ok?
    ensures ok ==> ammo[j].Snapshot() == RoundRow(rev, row, old(ammo[j].Snapshot())).value
    ensures forall k :: 0 <= k < |ammo| && k != j ==> ammo[k].Snapshot() == old(ammo[k].Snapshot())
  {
    ok := ApplyShellRow(rev, ammo[j], row);
  }

  /** One row of the shell-details table against every round of the list,
      in list order. */
  method ApplyShellRowAll(rev: Revision, row: seq<string>, ammo: seq<Ammunition>) returns (ok: bool)
    requires Distinct(ammo)
    modifies ammo
    ensures ok <==> ShellRow(rev, row, old(Snapshots(ammo))).Ok?
    ensures ok ==> Snapshots(ammo) == ShellRow(rev, row, old(Snapshots(ammo))).value
  {
    ghost var before := Snapshots(ammo);
    ghost var f := RoundRowOf(rev, row);
    ghost var done: seq<Round> := [];
    var j := 0;
    assert before[0..] == before;
    PrependNothing(MapAll(f, before));
    while j < |ammo|
      invariant 0 <= j <= |ammo| && |done| == j
      invariant MapAll(f, before) == Prepend(done, MapAll(f, before[j..]))
      invariant forall k :: 0 <= k < |ammo| ==> ammo[k].Snapshot() == if k < j then done[k] else before[k]
    {
      MapAllStep(f, before, j);
      ghost var y := f(before[j]);
      var rowOk := ApplyShellRowAt(rev, row, ammo, j);
      if !rowOk {
        return false;
      }
      PrependTwice(done, [y.value], MapAll(f, before[j + 1..]));
      done := done + [y.value];
      j := j + 1;
    }
    assert before[j..] == [];
    assert done + [] == done;
    ok := true;
  }

  /** `parse_ground_ammunitions_stats`: every body row against every round
      of the list, updating the rounds in place. */
  method ParseShellDetails(rev: Revision, t: Table, ammo: seq<Ammunition>) returns (ok: bool)
    requires Distinct(ammo)
    modifies ammo
    ensures ok <==> ShellTable(rev, t, old(Snapshots(ammo))).Ok?
    ensures ok ==> Snapshots(ammo) == ShellTable(rev, t, old(Snapshots(ammo))).value
  {
    var rows := Body(t.rows);
    ghost var goal := ShellRows(rev, rows, Snapshots(ammo));
    var i := 0;
    assert rows[0..] == rows;
    while i < |rows|
      invariant 0 <= i <= |rows|
      invariant goal == FoldAll(ShellRowOf(rev), Snapshots(ammo), rows[i..])
    {
      FoldAllStep(ShellRowOf(rev), Snapshots(ammo), rows, i);
      var rowOk := ApplyShellRowAll(rev, rows[i], ammo);
      if !rowOk {
        return false;
      }
      i := i + 1;
    }
    assert rows[i..] == [];
    ok := true;
  }
}
