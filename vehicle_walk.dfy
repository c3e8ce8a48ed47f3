/** The walk of `parse_ground_vehicle` over the page's `wikitable`s: it
    carries the caption of the gun the tables belong to and the current list
    of rounds, and hands that list to every gun whose name contains the
    caption. Guns handed the same list share its round objects, so a later
    "Shell details" table shows through all of them. */
module VehicleWalk {
  import opened Wrappers
  import opened Text
  import opened Collections
  import opened Markup
  import opened Ammunitions
  import opened Armaments
  import opened AmmoTables

  // ---------------------------------------------------------------------
  // The walk on values.

  /** Each table with the table before it; the first table's predecessor
      is the last table, as `tables[-1]` is in Python. */
  function WithPrevious(tables: seq<Table>): (r: seq<(Table, Table)>)
    ensures |r| == |tables|
    ensures forall i :: 0 < i < |r| ==> r[i] == (tables[i], tables[i - 1])
    ensures |r| > 0 ==> r[0] == (tables[0], tables[|tables| - 1])
  {
    seq(|tables|, i requires 0 <= i < |tables| => (tables[i], if i == 0 then tables[|tables| - 1] else tables[i - 1]))
  }

  /** What the walk carries. `frozen` holds the lists that a later
      "Penetration statistics" table replaced, oldest first; `current` is the
      list in the local `ammunitions`; list `id` is `frozen[id]`, or `current`
      for `id == |frozen|`. `owner[k]` is the list gun `k` holds; every gun
      starts with list 0, the empty list the walk starts from, which is as
      empty as the class-level `ammo_types` default. */
  datatype Walk = Walk(caption: Option<string>, frozen: seq<seq<Round>>, current: seq<Round>, owner: seq<nat>)

  /** Where the walk starts: no caption bound, an empty current list. */
  function StartWalk(names: seq<string>): (w: Walk)
    ensures w.caption.None? && w.frozen == [] && w.current == []
    ensures |w.owner| == |names| && forall k :: 0 <= k < |names| ==> w.owner[k] == 0
  {
    Walk(None, [], [], seq(|names|, k => 0))
  }

  /** The rounds of list `id`. */
  function ListOf(w: Walk, id: nat): seq<Round> {
    if id < |w.frozen| then w.frozen[id] else w.current
  }

  /** The rounds gun `k` ends up with. */
  function AmmoOf(w: Walk, k: nat): seq<Round> {
    if k < |w.owner| then ListOf(w, w.owner[k]) else []
  }

  /** The gun caption after a two-class table, read from the table before
      it. `Current`: the trimmed anchor text of that table's first header
      cell, or the caption so far when the cell has no anchor, and an unbound
      caption raises. `Earlier`: the header text with 'n's stripped from both
      ends and then white space. A missing header cell raises. */
  function Caption(rev: Revision, caption: Option<string>, prev: Table): (r: Result<string>)
    ensures prev.head.None? ==> r.Raised?
    ensures rev == Current && prev.head.Some? && prev.head.value.anchor.Some? ==>
      r == Ok(Trim(prev.head.value.anchor.value))
    ensures rev == Current && prev.head.Some? && prev.head.value.anchor.None? ==>
      (r.Ok? <==> caption.Some?) && (r.Ok? ==> r.value == caption.value)
    ensures rev == Earlier && prev.head.Some? ==> r == Ok(Trim(Strip(prev.head.value.text, {'n'})))
  {
    var h :- Need(prev.head);
    if rev == Earlier then Ok(Trim(Strip(h.text, {'n'})))
    else if h.anchor.Some? then Ok(Trim(h.anchor.value))
    else Need(caption)
  }

  /** What a two-class table's header asks for. */
  datatype TableKind = PenetrationTable | ShellDetailsTable | OtherTable

  /** The header text of a table, compared as the revision compares it. A
      missing header cell raises. */
  function TableKindOf(rev: Revision, t: Table): (r: Result<TableKind>)
    ensures r.Ok? <==> t.head.Some?
    ensures r.Ok? ==> (r.value == PenetrationTable <==> Norm(rev, t.head.value.text) == "Penetration statistics")
    ensures r.Ok? ==> (r.value == ShellDetailsTable <==> Norm(rev, t.head.value.text) == "Shell details")
  {
    var h :- Need(t.head);
    var title := Norm(rev, h.text);
    if title == "Penetration statistics" then Ok(PenetrationTable)
    else if title == "Shell details" then Ok(ShellDetailsTable)
    else Ok(OtherTable)
  }

  /** The lists after a two-class table: a penetration table puts a new list
      in place of the current one, a shell-details table merges into a
      current list that is not empty, and any other table leaves them. */
  function ListStep(rev: Revision, kind: TableKind, t: Table, w: Walk): Result<Walk> {
    match kind
    case PenetrationTable =>
      var rs :- PenTable(rev, t);
      Ok(w.(frozen := w.frozen + [w.current], current := rs))
    case ShellDetailsTable =>
      if |w.current| > 0 then
        var rs :- ShellTable(rev, t, w.current);
        Ok(w.(current := rs))
      else Ok(w)
    case OtherTable => Ok(w)
  }

  /** Every gun whose name contains the caption now holds list `id`. */
  function Assign(names: seq<string>, caption: string, owner: seq<nat>, id: nat): (r: seq<nat>)
    ensures |r| == |owner|
    ensures forall k :: 0 <= k < |owner| && k < |names| ==>
      r[k] == if Contains(names[k], caption) then id else owner[k]
  {
    seq(|owner|, k requires 0 <= k < |owner| => if k < |names| && Contains(names[k], caption) then id else owner[k])
  }

  /** One table of the walk, given with the table before it. Only tables
      listing two classes act. */
  function TableStep(rev: Revision, names: seq<string>, w: Walk, p: (Table, Table)): Result<Walk> {
    if p.0.classes != 2 then Ok(w)
    else
      var c :- Caption(rev, w.caption, p.1);
      var kind :- TableKindOf(rev, p.0);
      var w1 :- ListStep(rev, kind, p.0, w);
      Ok(w1.(caption := Some(c), owner := Assign(names, c, w1.owner, |w1.frozen|)))
  }

  function TableStepOf(rev: Revision, names: seq<string>): (Walk, (Table, Table)) -> Result<Walk> {
    (w, p) => TableStep(rev, names, w, p)
  }

  /** The whole walk, for guns with the given names. */
  function WalkTables(rev: Revision, names: seq<string>, tables: seq<Table>): Result<Walk> {
    FoldAll(TableStepOf(rev, names), StartWalk(names), WithPrevious(tables))
  }

  // ---------------------------------------------------------------------
  // What the walk promises.

  /** The lists a gun can hold: every gun holds a list that exists. */
  predicate Owned(w: Walk) {
    forall k :: 0 <= k < |w.owner| ==> w.owner[k] <= |w.frozen|
  }

  /** A table that does not list two classes changes nothing. */
  lemma OtherTablesIgnored(rev: Revision, names: seq<string>, w: Walk, p: (Table, Table))
    requires p.0.classes != 2
    ensures TableStep(rev, names, w, p) == Ok(w)
  {
  }

  /** The lists after a table keep the replaced ones and add at most one. */
  lemma ListStepKeeps(rev: Revision, kind: TableKind, t: Table, w: Walk)
    requires ListStep(rev, kind, t, w).Ok?
    ensures var w1 := ListStep(rev, kind, t, w).value;
      w1.frozen == w.frozen + [w.current] || w1.frozen == w.frozen
    ensures ListStep(rev, kind, t, w).value.owner == w.owner
    ensures ListStep(rev, kind, t, w).value.caption == w.caption
  {
  }

  /** A two-class table that goes through is its caption, its kind and its
      list step, in that order. */
  lemma TableStepParts(rev: Revision, names: seq<string>, w: Walk, p: (Table, Table))
    requires p.0.classes == 2 && TableStep(rev, names, w, p).Ok?
    ensures Caption(rev, w.caption, p.1).Ok? && TableKindOf(rev, p.0).Ok?
    ensures ListStep(rev, TableKindOf(rev, p.0).value, p.0, w).Ok?
    ensures var c := Caption(rev, w.caption, p.1).value;
      var w1 := ListStep(rev, TableKindOf(rev, p.0).value, p.0, w).value;
      TableStep(rev, names, w, p).value == w1.(caption := Some(c), owner := Assign(names, c, w1.owner, |w1.frozen|))
  {
  }

  /** One table keeps the replaced lists as they are (it can only add one),
      keeps the number of guns and the lists they may hold, hands the current
      list to exactly the guns whose names contain the caption and leaves
      every other gun with the list it held. */
  lemma TableStepKeeps(rev: Revision, names: seq<string>, w: Walk, p: (Table, Table))
    requires |w.owner| == |names| && Owned(w)
    requires TableStep(rev, names, w, p).Ok?
    ensures var w' := TableStep(rev, names, w, p).value;
      w.frozen <= w'.frozen && |w'.frozen| <= |w.frozen| + 1
      && |w'.owner| == |names| && Owned(w')
      && (p.0.classes == 2 ==>
            w'.caption == Some(Caption(rev, w.caption, p.1).value)
            && forall k :: 0 <= k < |names| ==>
                 w'.owner[k] == if Contains(names[k], w'.caption.value) then |w'.frozen| else w.owner[k])
  {
    if p.0.classes == 2 {
      TableStepParts(rev, names, w, p);
      ListStepKeeps(rev, TableKindOf(rev, p.0).value, p.0, w);
    }
  }

  /** A penetration table replaces the current list by its own rounds. */
  lemma PenetrationReplaces(rev: Revision, names: seq<string>, w: Walk, p: (Table, Table))
    requires p.0.classes == 2 && TableKindOf(rev, p.0) == Ok(PenetrationTable)
    requires TableStep(rev, names, w, p).Ok?
    ensures PenTable(rev, p.0).Ok?
    ensures TableStep(rev, names, w, p).value.current == PenTable(rev, p.0).value
    ensures TableStep(rev, names, w, p).value.frozen == w.frozen + [w.current]
  {
    TableStepParts(rev, names, w, p);
  }

  /** A shell-details table merges into the current list, and only into a
      list that is not empty. */
  lemma ShellDetailsMerges(rev: Revision, names: seq<string>, w: Walk, p: (Table, Table))
    requires p.0.classes == 2 && TableKindOf(rev, p.0) == Ok(ShellDetailsTable)
    requires TableStep(rev, names, w, p).Ok?
    ensures TableStep(rev, names, w, p).value.frozen == w.frozen
    ensures |w.current| == 0 ==> TableStep(rev, names, w, p).value.current == []
    ensures |w.current| > 0 ==> TableStep(rev, names, w, p).value.current == ShellTable(rev, p.0, w.current).value
  {
    TableStepParts(rev, names, w, p);
    var w1 := ListStep(rev, ShellDetailsTable, p.0, w).value;
    if |w.current| == 0 {
      assert w1 == w;
    } else {
      assert w1 == w.(current := ShellTable(rev, p.0, w.current).value);
    }
  }

  /** In the earlier revision the caption never fails once the header cell
      is there, and does not depend on the caption before. */
  lemma EarlierCaption(caption: Option<string>, other: Option<string>, prev: Table)
    requires prev.head.Some?
    ensures Caption(Earlier, caption, prev) == Caption(Earlier, other, prev)
    ensures Caption(Earlier, caption, prev).Ok?
  {
  }

  /** The whole walk keeps the walk's shape: one owner per gun, every owner
      a list that exists, and replaced lists never change again. */
  lemma {:induction false} WalkKeeps(rev: Revision, names: seq<string>, w: Walk, ps: seq<(Table, Table)>)
    requires |w.owner| == |names| && Owned(w)
    requires FoldAll(TableStepOf(rev, names), w, ps).Ok?
    ensures var w' := FoldAll(TableStepOf(rev, names), w, ps).value;
      |w'.owner| == |names| && Owned(w') && w.frozen <= w'.frozen
    decreases |ps|
  {
    if |ps| > 0 {
      TableStepKeeps(rev, names, w, ps[0]);
      var w1 := TableStep(rev, names, w, ps[0]).value;
      WalkKeeps(rev, names, w1, ps[1..]);
    }
  }

  /** After the walk every gun holds a list, and the walk's guns are the
      page's guns. */
  lemma WalkTablesKeeps(rev: Revision, names: seq<string>, tables: seq<Table>)
    requires WalkTables(rev, names, tables).Ok?
    ensures |WalkTables(rev, names, tables).value.owner| == |names|
    ensures Owned(WalkTables(rev, names, tables).value)
  {
    WalkKeeps(rev, names, StartWalk(names), WithPrevious(tables));
  }

  /** The first table reads its caption from the last one (`tables[-1]`):
      when the first table lists two classes and the last table's header
      gives no caption of its own (no header cell, or in the current revision
      no anchor), the walk raises, as no caption is bound yet. */
  lemma FirstTableReadsLast(rev: Revision, names: seq<string>, tables: seq<Table>)
    requires |tables| > 0 && tables[0].classes == 2
    ensures Caption(rev, None, tables[|tables| - 1]).Raised? ==> WalkTables(rev, names, tables).Raised?
  {
    var ps := WithPrevious(tables);
    assert ps[0] == (tables[0], tables[|tables| - 1]);
  }

  /** Where a caption comes from: the table before, read as if no caption
      were bound yet, or (in the current revision, when that table's header
      has no anchor) the caption so far. */
  lemma CaptionSource(rev: Revision, caption: Option<string>, prev: Table)
    requires Caption(rev, caption, prev).Ok?
    ensures Caption(rev, caption, prev) == Caption(rev, None, prev)
      || (caption.Some? && Caption(rev, caption, prev).value == caption.value)
  {
  }

  /** A gun whose name contains neither the caption bound so far nor any
      caption a two-class table reads from its predecessor keeps the list it
      held. */
  lemma {:induction false} UnmatchedGunKeepsNothing(rev: Revision, names: seq<string>, w: Walk, ps: seq<(Table, Table)>, k: nat)
    requires |w.owner| == |names| && Owned(w) && k < |names|
    requires FoldAll(TableStepOf(rev, names), w, ps).Ok?
    requires w.caption.Some? ==> !Contains(names[k], w.caption.value)
    requires forall i :: 0 <= i < |ps| && ps[i].0.classes == 2 && Caption(rev, None, ps[i].1).Ok? ==>
      !Contains(names[k], Caption(rev, None, ps[i].1).value)
    ensures |FoldAll(TableStepOf(rev, names), w, ps).value.owner| == |names|
    ensures FoldAll(TableStepOf(rev, names), w, ps).value.owner[k] == w.owner[k]
    decreases |ps|
  {
    WalkKeeps(rev, names, w, ps);
    if |ps| > 0 {
      TableStepKeeps(rev, names, w, ps[0]);
      var w1 := TableStep(rev, names, w, ps[0]).value;
      if ps[0].0.classes == 2 {
        CaptionSource(rev, w.caption, ps[0].1);
      }
      assert w1.caption.Some? ==> !Contains(names[k], w1.caption.value);
      assert w1.owner[k] == w.owner[k];
      assert forall i :: 1 <= i < |ps| ==> ps[1..][i - 1] == ps[i];
      UnmatchedGunKeepsNothing(rev, names, w1, ps[1..], k);
    }
  }

  /** One table keeps list 0, the list every gun starts with, empty. */
  lemma FirstListStep(rev: Revision, names: seq<string>, w: Walk, p: (Table, Table))
    requires TableStep(rev, names, w, p).Ok? && ListOf(w, 0) == []
    ensures ListOf(TableStep(rev, names, w, p).value, 0) == []
  {
    if p.0.classes == 2 {
      TableStepParts(rev, names, w, p);
      var kind := TableKindOf(rev, p.0).value;
      if kind == PenetrationTable {
        PenetrationReplaces(rev, names, w, p);
      } else if kind == ShellDetailsTable {
        ShellDetailsMerges(rev, names, w, p);
      }
    }
  }

  /** The whole walk keeps list 0 empty. */
  lemma {:induction false} FirstListStaysEmpty(rev: Revision, names: seq<string>, w: Walk, ps: seq<(Table, Table)>)
    requires FoldAll(TableStepOf(rev, names), w, ps).Ok? && ListOf(w, 0) == []
    ensures ListOf(FoldAll(TableStepOf(rev, names), w, ps).value, 0) == []
    decreases |ps|
  {
    if |ps| > 0 {
      FirstListStep(rev, names, w, ps[0]);
      FirstListStaysEmpty(rev, names, TableStep(rev, names, w, ps[0]).value, ps[1..]);
    }
  }

  /** On a whole page, a gun whose name contains none of the captions the
      two-class tables read ends the walk with no rounds, the empty
      `ammo_types` default. */
  lemma UnmatchedGunEmpty(rev: Revision, names: seq<string>, tables: seq<Table>, k: nat)
    requires k < |names| && WalkTables(rev, names, tables).Ok?
    requires forall i ::
      (0 <= i < |tables| && tables[i].classes == 2 && Caption(rev, None, WithPrevious(tables)[i].1).Ok?) ==>
        !Contains(names[k], Caption(rev, None, WithPrevious(tables)[i].1).value)
    ensures AmmoOf(WalkTables(rev, names, tables).value, k) == []
  {
    var w := StartWalk(names);
    var ps := WithPrevious(tables);
    UnmatchedGunKeepsNothing(rev, names, w, ps, k);
    FirstListStaysEmpty(rev, names, w, ps);
  }

  // ---------------------------------------------------------------------
  // The walk on the gun objects.

  /** `for armament in parsed_tank.armaments: if armament_name in
      armament.name: armament.ammo_types = ammunitions`. */
  method AssignList(arms: seq<Armament>, caption: string, list: seq<Ammunition>)
    requires Distinct(arms)
    modifies arms`ammoTypes
    ensures forall k :: 0 <= k < |arms| ==>
      arms[k].ammoTypes == if Contains(arms[k].name, caption) then list else old(arms[k].ammoTypes)
  {
    for j := 0 to |arms|
      invariant forall k :: 0 <= k < j ==>
        arms[k].ammoTypes == if Contains(arms[k].name, caption) then list else old(arms[k].ammoTypes)
      invariant forall k :: j <= k < |arms| ==> arms[k].ammoTypes == old(arms[k].ammoTypes)
    {
      if Contains(arms[j].name, caption) {
        arms[j].ammoTypes := list;
      }
    }
  }

  /** How the gun objects mirror the walk: gun `k` holds the objects of list
      `w.owner[k]` and they hold that list's rounds; guns holding the current
      list hold the very objects in `list`; objects of replaced lists are in
      `retired` and no object of `list` is; guns holding the same list hold
      the same objects. */
  predicate Mirrors(w: Walk, arms: seq<Armament>, list: seq<Ammunition>, retired: set<Ammunition>)
    reads arms, list, retired
  {
    Shape(w, arms, list, retired) && Snapshots(list) == w.current && RetiredHold(w, arms, retired)
  }

  /** Which objects each gun holds. */
  predicate Shape(w: Walk, arms: seq<Armament>, list: seq<Ammunition>, retired: set<Ammunition>)
    reads arms
  {
    |w.owner| == |arms| && Owned(w) && Distinct(list)
    && (forall a :: a in list ==> a !in retired)
    && (forall k :: 0 <= k < |arms| && w.owner[k] == |w.frozen| ==> arms[k].ammoTypes == list)
    && Retired(w, arms, retired)
    && (forall j, k :: 0 <= j < |arms| && 0 <= k < |arms| && w.owner[j] == w.owner[k] ==>
          arms[j].ammoTypes == arms[k].ammoTypes)
  }

  /** The objects of replaced lists are retired. */
  predicate Retired(w: Walk, arms: seq<Armament>, retired: set<Ammunition>)
    reads arms
  {
    |w.owner| == |arms|
    && forall k, a :: 0 <= k < |arms| && w.owner[k] < |w.frozen| && a in arms[k].ammoTypes ==> a in retired
  }

  /** The guns holding replaced lists hold those lists' rounds. */
  predicate RetiredHold(w: Walk, arms: seq<Armament>, retired: set<Ammunition>)
    reads arms, retired
    requires Retired(w, arms, retired)
  {
    forall k :: 0 <= k < |arms| && w.owner[k] < |w.frozen| ==> Snapshots(arms[k].ammoTypes) == w.frozen[w.owner[k]]
  }

  /** Mirroring gives every gun the rounds of the list it holds. */
  lemma MirrorsAmmo(w: Walk, arms: seq<Armament>, list: seq<Ammunition>, retired: set<Ammunition>, k: nat)
    requires Mirrors(w, arms, list, retired) && k < |arms|
    ensures Snapshots(arms[k].ammoTypes) == AmmoOf(w, k)
  {
  }

  /** A penetration table: fresh objects for its rounds become the current
      list and the old current objects are retired. */
  method StepPenetration(rev: Revision, t: Table, ghost w: Walk, arms: seq<Armament>,
                         list: seq<Ammunition>, ghost retired: set<Ammunition>)
      returns (ok: bool, list': seq<Ammunition>, ghost retired': set<Ammunition>, ghost w': Walk)
    requires Mirrors(w, arms, list, retired)
    ensures ok <==> PenTable(rev, t).Ok?
    ensures ok ==> w' == w.(frozen := w.frozen + [w.current], current := PenTable(rev, t).value)
    ensures ok ==> Mirrors(w', arms, list', retired')
    ensures ok ==> forall j :: 0 <= j < |list'| ==> fresh(list'[j])
  {
    var r := ParsePenetration(rev, t);
    if r.Raised? {
      return false, list, retired, w;
    }
    list', retired' := r.value, retired + set a | a in list;
    w' := w.(frozen := w.frozen + [w.current], current := PenTable(rev, t).value);
    ok := true;
  }

  /** A shell-details table: the current objects are updated in place, and
      the retired ones, which no current object is, stay as they were. */
  method StepShellDetails(rev: Revision, t: Table, ghost w: Walk, arms: seq<Armament>,
                          list: seq<Ammunition>, ghost retired: set<Ammunition>)
      returns (ok: bool, ghost w': Walk)
    requires Mirrors(w, arms, list, retired)
    modifies list
    ensures ok <==> ShellTable(rev, t, w.current).Ok?
    ensures ok ==> w' == w.(current := ShellTable(rev, t, w.current).value)
    ensures ok ==> Mirrors(w', arms, list, retired)
  {
    w' := w;
    ok := ParseShellDetails(rev, t, list);
    if ok {
      w' := w.(current := ShellTable(rev, t, w.current).value);
    }
  }

  /** The current list's objects through a two-class table. */
  method ApplyListStep(rev: Revision, kind: TableKind, t: Table, ghost w: Walk, arms: seq<Armament>,
                       list: seq<Ammunition>, ghost retired: set<Ammunition>)
      returns (ok: bool, list': seq<Ammunition>, ghost retired': set<Ammunition>, ghost w': Walk)
    requires Mirrors(w, arms, list, retired)
    modifies list
    ensures ok <==> ListStep(rev, kind, t, w).Ok?
    ensures ok ==> w' == ListStep(rev, kind, t, w).value && Mirrors(w', arms, list', retired')
    ensures ok ==> forall j :: 0 <= j < |list'| ==> list'[j] in list || fresh(list'[j])
  {
    list', retired', w' := list, retired, w;
    if kind == PenetrationTable {
      ok, list', retired', w' := StepPenetration(rev, t, w, arms, list, retired);
    } else if kind == ShellDetailsTable && |list| > 0 {
      ok, w' := StepShellDetails(rev, t, w, arms, list, retired);
    } else {
      ok := true;
    }
  }

  /** The current list handed to the guns that match the caption. */
  method ApplyAssign(ghost names: seq<string>, caption: string, ghost w: Walk, arms: seq<Armament>,
                     list: seq<Ammunition>, ghost retired: set<Ammunition>) returns (ghost w': Walk)
    requires Mirrors(w, arms, list, retired) && Distinct(arms)
    requires |names| == |arms| && forall k :: 0 <= k < |arms| ==> arms[k].name == names[k]
    modifies arms`ammoTypes
    ensures w' == w.(caption := Some(caption), owner := Assign(names, caption, w.owner, |w.frozen|))
    ensures Mirrors(w', arms, list, retired)
  {
    AssignList(arms, caption, list);
    w' := w.(caption := Some(caption), owner := Assign(names, caption, w.owner, |w.frozen|));
  }

  /** A two-class table whose caption, kind and list step go through. */
  lemma TableStepFrom(rev: Revision, names: seq<string>, w: Walk, p: (Table, Table))
    requires p.0.classes == 2 && Caption(rev, w.caption, p.1).Ok? && TableKindOf(rev, p.0).Ok?
    requires ListStep(rev, TableKindOf(rev, p.0).value, p.0, w).Ok?
    ensures var c := Caption(rev, w.caption, p.1).value;
      var w1 := ListStep(rev, TableKindOf(rev, p.0).value, p.0, w).value;
      TableStep(rev, names, w, p) == Ok(w1.(caption := Some(c), owner := Assign(names, c, w1.owner, |w1.frozen|)))
  {
  }

  /** One two-class table on the gun objects. */
  method ApplyTable(rev: Revision, t: Table, prev: Table, ghost names: seq<string>, caption: Option<string>,
                    ghost w: Walk, arms: seq<Armament>, list: seq<Ammunition>, ghost retired: set<Ammunition>)
      returns (ok: bool, caption': Option<string>, list': seq<Ammunition>, ghost retired': set<Ammunition>, ghost w': Walk)
    requires t.classes == 2 && caption == w.caption
    requires Mirrors(w, arms, list, retired) && Distinct(arms)
    requires |names| == |arms| && forall k :: 0 <= k < |arms| ==> arms[k].name == names[k]
    modifies arms`ammoTypes, list
    ensures ok <==> TableStep(rev, names, w, (t, prev)).Ok?
    ensures ok ==> w' == TableStep(rev, names, w, (t, prev)).value
    ensures ok ==> caption' == w'.caption && Mirrors(w', arms, list', retired')
    ensures ok ==> forall j :: 0 <= j < |list'| ==> list'[j] in list || fresh(list'[j])
  {
    caption', list', retired', w' := caption, list, retired, w;
    var c := Caption(rev, caption, prev);
    if c.Raised? {
      return false, caption', list', retired', w';
    }
    var kind := TableKindOf(rev, t);
    if kind.Raised? {
      return false, caption', list', retired', w';
    }
    ok, list', retired', w' := ApplyListStep(rev, kind.value, t, w, arms, list, retired);
    if !ok {
      return false, caption', list', retired', w';
    }
    TableStepFrom(rev, names, w, (t, prev));
    w' := ApplyAssign(names, c.value, w', arms, list', retired');
    caption' := Some(c.value);
  }

  /** The table loop of `parse_ground_vehicle` on the gun objects; every gun
      must still hold the empty default list. */
  method ApplyTables(rev: Revision, tables: seq<Table>, arms: seq<Armament>, ghost names: seq<string>) returns (ok: bool)
    requires Distinct(arms) && |names| == |arms|
    requires forall k :: 0 <= k < |arms| ==> arms[k].name == names[k] && arms[k].ammoTypes == []
    modifies arms`ammoTypes
    ensures ok <==> WalkTables(rev, names, tables).Ok?
    ensures ok ==> forall k :: 0 <= k < |arms| ==> Snapshots(arms[k].ammoTypes) == AmmoOf(WalkTables(rev, names, tables).value, k)
    ensures ok ==> var w := WalkTables(rev, names, tables).value;
      |w.owner| == |arms|
      && forall j, k :: 0 <= j < |arms| && 0 <= k < |arms| && w.owner[j] == w.owner[k] ==>
           arms[j].ammoTypes == arms[k].ammoTypes
  {
    ghost var pairs := WithPrevious(tables);
    ghost var f := TableStepOf(rev, names);
    ghost var w := StartWalk(names);
    ghost var goal := WalkTables(rev, names, tables);
    ghost var retired: set<Ammunition> := {};
    var caption: Option<string> := None;
    var list: seq<Ammunition> := [];
    var i := 0;
    assert pairs[0..] == pairs;
    while i < |tables|
      invariant i <= |tables|
      invariant goal == FoldAll(f, w, pairs[i..])
      invariant caption == w.caption
      invariant Mirrors(w, arms, list, retired)
      invariant forall k :: 0 <= k < |arms| ==> arms[k].name == names[k]
      invariant forall j :: 0 <= j < |list| ==> fresh(list[j])
    {
      FoldAllStep(f, w, pairs, i);
      var t := tables[i];
      var prev := if i == 0 then tables[|tables| - 1] else tables[i - 1];
      assert pairs[i] == (t, prev);
      if t.classes == 2 {
        ok, caption, list, retired, w := ApplyTable(rev, t, prev, names, caption, w, arms, list, retired);
        if !ok {
          return false;
        }
      }
      i := i + 1;
    }
    assert pairs[i..] == [];
    forall k | 0 <= k < |arms|
      ensures Snapshots(arms[k].ammoTypes) == AmmoOf(w, k)
    {
      MirrorsAmmo(w, arms, list, retired, k);
    }
    ok := true;
  }
}
