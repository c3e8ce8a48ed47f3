/** The wiki scraper around the parser: the codec that turns a vehicle name
    into a file name and back, the rule that files a page under a terrain,
    and the index of nations to tech-tree addresses. */
module Scraper {
  import opened Wrappers
  import opened Text
  import opened Numbers
  import opened Collections

  // ---------------------------------------------------------------------
  // Vehicle names as file names.

  /** Python's `ord(c)`. */
  function Ord(c: char): nat {
    c as int
  }

  /** Python's `chr(n)`: it raises outside 0 .. 0x10FFFF. The surrogate code
      points, which a Dafny `char` cannot hold, fail here as well. */
  function Chr(n: int): (r: Option<char>)
    ensures r.Some? <==> (0 <= n < 0xD800 || 0xE000 <= n < 0x11_0000)
    ensures r.Some? ==> Ord(r.value) == n
  {
    if 0 <= n < 0xD800 || 0xE000 <= n < 0x11_0000 then Some(n as char) else None
  }

  /** The default delimiter of both codecs. */
  const Dash := "-"

  /** A delimiter that no decimal code can contain. */
  predicate NoDigit(delim: string) {
    forall i :: 0 <= i < |delim| ==> !IsDigit(delim[i])
  }

  /** Decimal digits read back as the code point they were written from. */
  lemma DecimalsRead(s: string)
    ensures forall i :: 0 <= i < |s| ==> DigitsValue(Decimal(Ord(s[i]))) == Ord(s[i])
  {
    forall i | 0 <= i < |s|
      ensures DigitsValue(Decimal(Ord(s[i]))) == Ord(s[i])
    {
      DecimalValue(Ord(s[i]));
    }
  }

  /** The decimal code point of every character, in order: each code is a
      non-empty run of digits whose value is that character's code point. */
  function Codes(s: string): (r: seq<string>)
    ensures |r| == |s|
    ensures forall i :: 0 <= i < |s| ==> r[i] == Decimal(Ord(s[i]))
    ensures forall i :: 0 <= i < |s| ==> |r[i]| >= 1 && IsDigits(r[i]) && DigitsValue(r[i]) == Ord(s[i])
  {
    DecimalsRead(s);
    seq(|s|, i requires 0 <= i < |s| => Decimal(Ord(s[i])))
  }

  /** The accumulator of `string_to_ordinal`: each code followed by the
      delimiter. */
  function Accumulated(s: string, delim: string): string {
    if |s| == 0 then "" else Accumulated(s[..|s| - 1], delim) + Decimal(Ord(s[|s| - 1])) + delim
  }

  /** What `string_to_ordinal` returns: the accumulator after `rstrip`, which
      takes the delimiter as a set of characters to strip. */
  function Ordinals(s: string, delim: string): string {
    StripRight(Accumulated(s, delim), set c | c in delim)
  }

  /** `string_to_ordinal`. */
  method StringToOrdinal(s: string, delim: string) returns (out: string)
    ensures out == Ordinals(s, delim)
    ensures NoDigit(delim) ==> out == Join(Codes(s), delim)
  {
    var acc := "";
    var i := 0;
    while i < |s|
      invariant i <= |s|
      invariant acc == Accumulated(s[..i], delim)
    {
      assert s[..i + 1][..i] == s[..i];
      acc := acc + Decimal(Ord(s[i])) + delim;
      i := i + 1;
    }
    assert s[..i] == s;
    out := StripRight(acc, set c | c in delim);
    if NoDigit(delim) {
      OrdinalsJoin(s, delim);
    }
  }

  /** The accumulator of a non-empty name is the codes joined by the
      delimiter, with one delimiter more at the end. */
  lemma {:induction false} AccumulatedJoin(s: string, delim: string)
    requires |s| > 0
    ensures Accumulated(s, delim) == Join(Codes(s), delim) + delim
  {
    var n := |s| - 1;
    var d := Decimal(Ord(s[n]));
    assert Codes(s) == Codes(s[..n]) + [d];
    if n == 0 {
      assert Accumulated(s[..n], delim) == "";
    } else {
      AccumulatedJoin(s[..n], delim);
      JoinSnoc(Codes(s[..n]), d, delim);
    }
  }

  /** The last character of a non-empty join is the last character of its
      last part. */
  lemma {:induction false} JoinLast(parts: seq<string>, sep: string)
    requires |parts| >= 1 && |parts[|parts| - 1]| >= 1
    ensures var j := Join(parts, sep); |j| >= 1 && j[|j| - 1] == parts[|parts| - 1][|parts[|parts| - 1]| - 1]
  {
    var n := |parts| - 1;
    if n > 0 {
      assert parts == parts[..n] + [parts[n]];
      JoinSnoc(parts[..n], parts[n], sep);
    }
  }

  /** With a delimiter free of digits, `rstrip` takes off exactly the one
      trailing delimiter: the file name is the codes joined by the
      delimiter, and the empty name gives the empty file name. */
  lemma OrdinalsJoin(s: string, delim: string)
    requires NoDigit(delim)
    ensures Ordinals(s, delim) == Join(Codes(s), delim)
  {
    var cs := set c | c in delim;
    if |s| == 0 {
      assert Codes(s) == [];
    } else {
      AccumulatedJoin(s, delim);
      var j := Join(Codes(s), delim);
      var last := Codes(s)[|s| - 1];
      JoinLast(Codes(s), delim);
      assert IsDigit(last[|last| - 1]);
      assert j[|j| - 1] !in cs;
      forall i | 0 <= i < |delim|
        ensures delim[i] in cs
      {
      }
      StripRightTail(j, delim, cs);
    }
  }

  /** No code contains a character that starts a delimiter free of digits. */
  lemma CodesAvoid(s: string, delim: string)
    requires |delim| > 0 && NoDigit(delim)
    ensures forall k, i :: 0 <= k < |Codes(s)| && 0 <= i < |Codes(s)[k]| ==> Codes(s)[k][i] != delim[0]
  {
    forall k, i | 0 <= k < |Codes(s)| && 0 <= i < |Codes(s)[k]|
      ensures Codes(s)[k][i] != delim[0]
    {
      assert IsDigit(Codes(s)[k][i]);
    }
  }

  /** A non-empty name gives one field per character, each the non-empty
      decimal digits of that character's code point. */
  lemma OrdinalFields(s: string, delim: string)
    requires |s| > 0 && |delim| > 0 && NoDigit(delim)
    ensures var fields := Split(Ordinals(s, delim), delim);
      |fields| == |s|
      && forall i :: 0 <= i < |s| ==>
        |fields[i]| >= 1 && IsDigits(fields[i]) && DigitsValue(fields[i]) == Ord(s[i])
  {
    OrdinalsJoin(s, delim);
    CodesAvoid(s, delim);
    SplitJoin(Codes(s), delim);
  }

  /** One field of `ordinal_to_string`: `chr(int(x))`. */
  function DecodeField(x: string): (r: Result<char>)
    ensures r.Ok? <==> ParseInt(x).Some? && Chr(ParseInt(x).value).Some?
    ensures r.Ok? ==> ParseInt(x) == Some(Ord(r.value))
  {
    match ParseInt(x)
    case None => Raised
    case Some(n) => Need(Chr(n))
  }

  /** `ordinal_to_string` as a value: every piece of the split decoded, in
      order, the first failed conversion aborting; `split` itself raises on
      an empty delimiter. */
  function DecodeOrdinals(s: string, delim: string): Result<string> {
    if |delim| == 0 then Raised else MapAll(DecodeField, Split(s, delim))
  }

  /** `ordinal_to_string`. */
  method OrdinalToString(s: string, delim: string) returns (r: Result<string>)
    ensures r == DecodeOrdinals(s, delim)
  {
    if |delim| == 0 {
      return Raised;
    }
    var pieces := Split(s, delim);
    var out := "";
    var i := 0;
    assert pieces[0..] == pieces;
    PrependNothing(MapAll(DecodeField, pieces));
    while i < |pieces|
      invariant i <= |pieces|
      invariant MapAll(DecodeField, pieces) == Prepend(out, MapAll(DecodeField, pieces[i..]))
    {
      MapAllStep(DecodeField, pieces, i);
      var n := ParseInt(pieces[i]);
      if n.None? {
        return Raised;
      }
      var c := Chr(n.value);
      if c.None? {
        return Raised;
      }
      PrependTwice(out, [c.value], MapAll(DecodeField, pieces[i + 1..]));
      out := out + [c.value];
      i := i + 1;
    }
    assert pieces[i..] == [];
    assert out + [] == out;
    r := Ok(out);
  }

  /** Every piece is an integer that names a character. */
  predicate AllDecode(pieces: seq<string>) {
    forall i :: 0 <= i < |pieces| ==> DecodeField(pieces[i]).Ok?
  }

  /** Decoding goes through exactly when the delimiter is not empty and
      every piece of the split is an integer that names a character: an
      empty piece or one that is not a number makes it fail. */
  lemma DecodeOk(s: string, delim: string)
    ensures DecodeOrdinals(s, delim).Ok? <==> |delim| > 0 && AllDecode(Split(s, delim))
  {
    if |delim| > 0 {
      MapAllOk(DecodeField, Split(s, delim));
    }
  }

  /** The empty string has no code to decode: its one piece is empty, and
      `int("")` raises. */
  lemma DecodeEmpty(delim: string)
    ensures DecodeOrdinals("", delim) == Raised
  {
    if |delim| > 0 {
      assert Split("", delim) == [""];
      assert ParseInt("") == None;
      assert DecodeField("") == Raised;
    }
  }

  /** The codes of a name decode, one by one, to the name. */
  lemma CodesDecode(s: string)
    ensures MapAll(DecodeField, Codes(s)) == Ok(s)
  {
    var codes := Codes(s);
    forall i | 0 <= i < |codes|
      ensures DecodeField(codes[i]) == Ok(s[i])
    {
      ParseDecimal(Ord(s[i]));
    }
    MapAllOk(DecodeField, codes);
    var r := MapAll(DecodeField, codes).value;
    forall i | 0 <= i < |s|
      ensures |r| == |s| && r[i] == s[i]
    {
      MapAllAt(DecodeField, codes, i);
    }
    assert r == s;
  }

  /** A non-empty name comes back from its file name. */
  lemma RoundTrip(s: string, delim: string)
    requires |s| > 0 && |delim| > 0 && NoDigit(delim)
    ensures DecodeOrdinals(Ordinals(s, delim), delim) == Ok(s)
  {
    OrdinalsJoin(s, delim);
    CodesAvoid(s, delim);
    SplitJoin(Codes(s), delim);
    CodesDecode(s);
  }

  /** The round trip with the default delimiter, and the empty name, whose
      file name "" does not decode. */
  lemma RoundTripDash(s: string)
    ensures |s| > 0 ==> DecodeOrdinals(Ordinals(s, Dash), Dash) == Ok(s)
    ensures |s| == 0 ==> Ordinals(s, Dash) == "" && DecodeOrdinals(Ordinals(s, Dash), Dash) == Raised
  {
    assert NoDigit(Dash) by {
      assert Dash[0] == '-';
    }
    OrdinalsJoin(s, Dash);
    if |s| > 0 {
      RoundTrip(s, Dash);
    } else {
      assert Codes(s) == [];
      DecodeEmpty(Dash);
    }
  }

  /** Different vehicle names are filed under different names. */
  lemma OrdinalsInjective(a: string, b: string, delim: string)
    requires |delim| > 0 && NoDigit(delim)
    requires Ordinals(a, delim) == Ordinals(b, delim)
    ensures a == b
  {
    if |a| > 0 && |b| > 0 {
      RoundTrip(a, delim);
      RoundTrip(b, delim);
    } else if |a| > 0 || |b| > 0 {
      var s := if |a| > 0 then a else b;
      OrdinalsJoin(a, delim);
      OrdinalsJoin(b, delim);
      OrdinalsJoin(s, delim);
      JoinLast(Codes(s), delim);
      assert false;
    }
  }

  // ---------------------------------------------------------------------
  // The terrain of a page.

  /** `TerrainType`: the kinds of vehicle page. */
  datatype Terrain = Ground | Naval | Aviation

  /** The word of the category text that files a page under `t`. */
  function Word(t: Terrain): string {
    match t
    case Ground => "ground"
    case Aviation => "aviation"
    case Naval => "fleet"
  }

  /** The order in which the words are tried. */
  function Rank(t: Terrain): nat {
    match t
    case Ground => 0
    case Aviation => 1
    case Naval => 2
  }

  /** The category text holds `w`, ignoring case. */
  predicate Mentions(category: string, w: string) {
    Contains(Lower(category), w)
  }

  /** The `if`/`elif` chain of `get_vehicle_specs` on the first category
      link; a page it does not match is skipped. */
  function TerrainOf(category: string): Option<Terrain> {
    var c := Lower(category);
    if Contains(c, "ground") then Some(Ground)
    else if Contains(c, "aviation") then Some(Aviation)
    else if Contains(c, "fleet") then Some(Naval)
    else None
  }

  /** A page is filed under the first terrain, in the order ground,
      aviation, fleet, whose word the category holds, and skipped when it
      holds none. */
  lemma TerrainPrecedence(category: string, t: Terrain)
    ensures TerrainOf(category) == Some(t) <==>
      Mentions(category, Word(t)) && forall u :: Rank(u) < Rank(t) ==> !Mentions(category, Word(u))
    ensures TerrainOf(category).None? <==> forall u :: !Mentions(category, Word(u))
  {
    assert Word(Ground) == "ground" && Word(Aviation) == "aviation" && Word(Naval) == "fleet";
    if !Mentions(category, "ground") && !Mentions(category, "aviation") && !Mentions(category, "fleet") {
      forall u
        ensures !Mentions(category, Word(u))
      {
        match u
        case Ground =>
        case Aviation =>
        case Naval =>
      }
    }
  }

  /** Lower-casing twice is lower-casing once. */
  lemma LowerTwice(s: string)
    ensures Lower(Lower(s)) == Lower(s)
  {
    forall i | 0 <= i < |s|
      ensures LowerChar(LowerChar(s[i])) == LowerChar(s[i])
    {
    }
  }

  /** The rule ignores case. */
  lemma TerrainIgnoresCase(category: string)
    ensures TerrainOf(Lower(category)) == TerrainOf(category)
  {
    LowerTwice(category);
  }

  // ---------------------------------------------------------------------
  // The nation index.

  const BaseUrl := "https://wiki.warthunder.com"

  /** A link of the nation table: its text and its `href`. */
  datatype Anchor = Anchor(text: string, href: string)

  /** The entry a link makes. */
  function Entries(links: seq<Anchor>): (r: seq<(string, string)>)
    ensures |r| == |links|
    ensures forall i :: 0 <= i < |links| ==> r[i] == (links[i].text, BaseUrl + links[i].href)
  {
    seq(|links|, i requires 0 <= i < |links| => (links[i].text, BaseUrl + links[i].href))
  }

  /** `get_nation` as a value. It takes the links of the first table row
      (there must be one) at the odd positions and enters each text with the
      address it points to, in order. */
  function NationIndex(rows: seq<seq<Anchor>>): Result<map<string, string>> {
    if |rows| == 0 then Raised else Ok(DictOf(Entries(OddIndexed(rows[0]))))
  }

  /** `get_nation`, on the links of each row of the nation table. */
  method GetNation(rows: seq<seq<Anchor>>) returns (r: Result<map<string, string>>)
    ensures r == NationIndex(rows)
  {
    if |rows| == 0 {
      return Raised;
    }
    var links := OddIndexed(rows[0]);
    var urls: map<string, string> := map[];
    var i := 0;
    while i < |links|
      invariant i <= |links|
      invariant urls == DictOf(Entries(links[..i]))
    {
      assert Entries(links[..i + 1])[..i] == Entries(links[..i]);
      urls := urls[links[i].text := BaseUrl + links[i].href];
      i := i + 1;
    }
    assert links[..i] == links;
    r := Ok(urls);
  }

  /** The nations are the texts of the odd-position links of the first row. */
  lemma NationKeys(rows: seq<seq<Anchor>>)
    requires |rows| > 0
    ensures NationIndex(rows).Ok?
    ensures NationIndex(rows).value.Keys == set k | 0 <= k < |rows[0]| / 2 :: rows[0][2 * k + 1].text
  {
    var links := OddIndexed(rows[0]);
    var e := Entries(links);
    DictOfKeys(e);
    var keys := set k | 0 <= k < |rows[0]| / 2 :: rows[0][2 * k + 1].text;
    forall x | x in keys
      ensures x in set i | 0 <= i < |e| :: e[i].0
    {
      var k :| 0 <= k < |rows[0]| / 2 && rows[0][2 * k + 1].text == x;
      assert e[k].0 == x;
    }
    forall i | 0 <= i < |e|
      ensures e[i].0 in keys
    {
      assert e[i].0 == rows[0][2 * i + 1].text;
    }
  }

  /** Every address is one of the links' targets under the wiki's base
      address. */
  lemma NationUrls(rows: seq<seq<Anchor>>, nation: string)
    requires |rows| > 0 && nation in NationIndex(rows).value
    ensures exists k :: (0 <= k < |rows[0]| / 2 && rows[0][2 * k + 1].text == nation
      && NationIndex(rows).value[nation] == BaseUrl + rows[0][2 * k + 1].href)
  {
    var e := Entries(OddIndexed(rows[0]));
    DictOfFrom(e, nation);
  }

  /** A link whose text no later odd-position link repeats gives its nation
      its address; a later link with the same text overwrites it. */
  lemma NationLastWins(rows: seq<seq<Anchor>>, k: nat)
    requires |rows| > 0 && k < |rows[0]| / 2
    requires forall j :: k < j < |rows[0]| / 2 ==> rows[0][2 * j + 1].text != rows[0][2 * k + 1].text
    ensures var a := rows[0][2 * k + 1];
      a.text in NationIndex(rows).value && NationIndex(rows).value[a.text] == BaseUrl + a.href
  {
    var e := Entries(OddIndexed(rows[0]));
    DictOfLastWins(e, k);
  }
}
