/** The parts of a wiki page that the ground-vehicle parser looks at, reduced
    to plain strings. Each `Option` is an element that the parser looks up and
    that may be missing; each string is the `.text` of an element. */
module Markup {
  import opened Wrappers
  import opened Text

  /** The two revisions of the parser. `Current` compares trimmed texts;
      `Earlier` compares texts exactly as they appear in the markup. */
  datatype Revision = Current | Earlier

  /** The text a revision compares: trimmed for `Current`, raw for `Earlier`. */
  function Norm(rev: Revision, s: string): string {
    if rev == Current then Trim(s) else s
  }

  /** The first `th` of a table's first `tr`: its text and, when it holds an
      `a` element, that anchor's text. */
  datatype HeadCell = HeadCell(text: string, anchor: Option<string>)

  /** A `wikitable`: how many classes its `class` attribute lists, its first
      header cell (None when the first row or its `th` is missing), and the
      `td` texts of every `tr`, header rows included. */
  datatype Table = Table(classes: nat, head: Option<HeadCell>, rows: seq<seq<string>>)

  /** The `specs_char_line indent` line of a stat block and the text of its
      `value` element. */
  datatype IndentLine = IndentLine(value: Option<string>)

  /** A `specs_char_block`: the texts of its first `name` and first `value`
      elements, and its indent line. */
  datatype StatBlock = StatBlock(name: Option<string>, value: Option<string>, indent: Option<IndentLine>)

  /** The `specs_name_weapon` element: its text and the text of its first `a`. */
  datatype NameElement = NameElement(text: string, anchor: Option<string>)

  /** The inside of a weapon's `specs_info` block. */
  datatype WeaponBlock = WeaponBlock(nameElement: Option<NameElement>, stats: seq<StatBlock>, features: seq<string>)

  /** A `specs_info` block and how many classes it lists: weapons list two. */
  datatype InfoBlock = InfoBlock(classes: nat, content: WeaponBlock)

  /** A vehicle page: the `general_info_name` text, the `specs_info` blocks,
      the `wikitable`s, every `feature_name` text and every
      `specs_mod_name` text, each in document order. */
  datatype Page = Page(
    nameText: Option<string>,
    infoBlocks: seq<InfoBlock>,
    tables: seq<Table>,
    features: seq<string>,
    modifications: seq<string>)

  /** The rows after the three header rows (Python's `rows[3:]`). */
  function Body(rows: seq<seq<string>>): (r: seq<seq<string>>)
    ensures |rows| <= 3 ==> r == []
    ensures |rows| > 3 ==> |r| == |rows| - 3 && forall i :: 0 <= i < |r| ==> r[i] == rows[i + 3]
  {
    if |rows| <= 3 then [] else rows[3..]
  }

  /** The `specs_info` blocks with two classes, the weapons, in page order. */
  function WeaponBlocks(blocks: seq<InfoBlock>): (r: seq<WeaponBlock>)
    ensures |r| <= |blocks|
    ensures forall w :: w in r ==> exists b :: b in blocks && b.classes == 2 && b.content == w
    ensures forall b :: b in blocks && b.classes == 2 ==> b.content in r
  {
    if |blocks| == 0 then []
    else (if blocks[0].classes == 2 then [blocks[0].content] else []) + WeaponBlocks(blocks[1..])
  }

  /** Selecting the weapons of two stretches of page one after the other:
      together with `WeaponBlocksOne`, this keeps both the page order and
      every repetition. */
  lemma {:induction false} WeaponBlocksConcat(a: seq<InfoBlock>, b: seq<InfoBlock>)
    ensures WeaponBlocks(a + b) == WeaponBlocks(a) + WeaponBlocks(b)
  {
    if |a| == 0 {
      assert a + b == b;
    } else {
      assert (a + b)[0] == a[0] && (a + b)[1..] == a[1..] + b;
      WeaponBlocksConcat(a[1..], b);
    }
  }

  /** One block is a weapon exactly when it has two classes. */
  lemma WeaponBlocksOne(b: InfoBlock)
    ensures WeaponBlocks([b]) == if b.classes == 2 then [b.content] else []
  {
    assert [b][1..] == [];
  }
}
