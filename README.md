# WTScraper ground-vehicle parser, modelled in Dafny

WTScraper reads War Thunder wiki pages and turns a ground vehicle's page into a
`Tank` record. The record holds `Armament` objects for the vehicle's guns, and each
gun holds the `Ammunition` rounds it fires. This project models the parsing core and
proves properties of it:

- **The records** (`tanks.py`, `armament.py`, `ammunition.py`). These are Dafny
  classes whose constructors state every default, plus the `__str__` summaries.
  Attributes that are declared but never assigned are `Option` fields that start as
  `None`.
- **The gun decoder** `parse_ground_armaments`. It takes the name, the counts, the
  vertical guidance, the reload times and the stabilizer features.
- **The two ammunition passes.**
  - The penetration table builds a fresh list of round objects.
  - The shell-details table updates the matching round objects in place.
- **The vehicle assembly** `parse_ground_vehicle`. It appends the guns and walks the
  `wikitable`s, carrying the gun caption and the current list of rounds. It hands
  that list to every gun whose name contains the caption, and it sets the feature
  and modification flags.
- **The filename codec** `string_to_ordinal` / `ordinal_to_string`, the terrain rule
  of `get_vehicle_specs`, and the nation index of `get_nation`
  (`scrape_wt_wiki.py`).

Two revisions of the parser, `wt_wiki_ground_parser.py` and the older
`wt_wiki_parser.py`, are one model parameterised by `Markup.Revision`:

- `Current` trims the texts it compares and swallows a missing gun name.
- `Current` reads one-value (autoloader) reload times and the stabilizer features.
- `Current` knows "Improved optics".
- `Earlier` compares the texts as they are and names every vehicle "Tank1".
- `Earlier` strips 'n's from captions and accepts only two-value reload times.

An HTML page enters the model already reduced to plain data (`Markup.Page`):

- a table is its class count, its first header cell and its rows of `td` texts;
- a weapon block is its name element, its stat blocks and its feature texts;
- the vehicle's feature and modification names are sequences of strings.

A missing element is `None`. Every Python exception is the one failure value
`Raised`: any crash aborts `parse_ground_vehicle`, and the page's objects are local
to that call.

Each imperative function has two parts in the model:

- **A value-level specification.** For example `AmmoTables.PenTable`,
  `VehicleWalk.WalkTables` and `VehicleParser.DecodeVehicle`.
- **A method over the objects.** For example `AmmoTables.ParsePenetration`,
  `VehicleWalk.ApplyTables` and `VehicleParser.ParseGroundVehicle`. Its contract ties
  the new object state to that specification.

The lemmas beside each specification state what the source promises. The table walk
is specified with list identities (`VehicleWalk.Walk.owner`), so it can state that
two guns handed the same list share its round objects.

Files:

- `wrappers.dfy`, `text.dfy`, `numbers.dfy`, `collections.dfy`: Python's string
  methods, `int()`/`float()` on decimal text, and `dict(zip(..))`.
- `markup.dfy`: the page data.
- `ammunition.dfy`, `armament.dfy`, `tanks.dfy`: the records.
- `ammo_tables.dfy`: the two ammunition passes.
- `armament_decoder.dfy`: the gun decoder.
- `vehicle_walk.dfy`: the table walk.
- `vehicle_parser.dfy`: the assembly, features and modifications.
- `scraper.dfy`: the codec, terrain and nation index.

Three facts about the code shape the model:

- Neither revision of `parse_ground_vehicle` has a `return` statement. It builds a
  `Tank` and then drops it.
- A gun takes a table's rounds when the caption is a substring of the gun's name
  (`armament_name in armament.name`).
- Several missing or malformed values raise. Examples are a missing value element,
  a guidance value with a single angle and a caption that was never bound. These
  are modelled as `Raised`.

## Model

| member | source | states |
|---|---|---|
| Ammunitions.Ammunition.constructor | ammunition.py:11-32 | name, type and penetration map are stored as given; ricochet is a fresh {0%,50%,100%} → -1 map, velocity -1, projectile mass -1.0; explosive mass, fuse delay, fuse sensitivity and range are unset |
| Ammunitions.Ammunition.SetDetails | wt_wiki_ground_parser.py:137-145 | the shell-details attributes take the new values and identity (name, type, penetration) stays |
| Ammunitions.LabelParts | ammunition.py:42 | the `name: type` summary splits back at ": " into name and type when neither holds a colon |
| Ammunitions.LabelColon | ammunition.py:42 | the summary always has a colon right after the name |
| Armaments.Stabilizer.Value | armament.py:10-14 | the enum values lie in 1..4 (NONE=1, VERTICAL=2, SHOULDER=3, TWOPLANE=4) |
| Armaments.StabilizerValues | armament.py:10-14 | distinct members have distinct values |
| Armaments.Armament.constructor | armament.py:17-32 | only the name is set; every other attribute holds the class default (-1 counts, -1.0 diameter, zero guidance and reload, NONE, False), and the rounds list is empty |
| Armaments.Armament.ToString | armament.py:34-35 | `__str__` is the name, " with Rounds: [", the round summaries joined by " \| " or "Default", and "]" |
| Armaments.ToStrings | armament.py:35 | the summaries of the objects are those of their current values |
| Armaments.RoundsTextDefault | armament.py:35 | the bracketed text is "Default" exactly when the gun has no rounds (a summary always has a colon, so the join is never "Default") |
| Tanks.Tank.constructor | tanks.py:40-63 | name and empty armaments; -1 crew, visibility, smokes, stabilizer; -100.0 weight; False ess, night and thermal vision; fresh zero mode and gear maps; empty armour tuples; the declared-only attributes unset |
| Tanks.Tank.AddArmament | wt_wiki_ground_parser.py:46 | the gun is appended at the end of the list |
| Markup.WeaponBlocks | wt_wiki_ground_parser.py:42 | exactly the blocks with two classes are weapon blocks |
| Markup.WeaponBlocksConcat | wt_wiki_ground_parser.py:42 | the weapons of two stretches of page are those of the first followed by those of the second, so page order and repetitions are kept |
| Markup.WeaponBlocksOne | wt_wiki_ground_parser.py:42 | a single block gives its content once when it has two classes, and nothing otherwise |
| AmmoTables.PenTableOk | wt_wiki_ground_parser.py:162-169 | the penetration table decodes exactly when every body row does |
| AmmoTables.PenTableRound | wt_wiki_ground_parser.py:162-169 | one round per body row, in row order, round i from row i+3 |
| AmmoTables.PenRowIdentity | wt_wiki_ground_parser.py:165-168 | a round's name and type are cells 0 and 1, trimmed (verbatim in the earlier revision, wt_wiki_parser.py:141-142), and all else is the constructor's defaults |
| AmmoTables.PenRowKeys | wt_wiki_ground_parser.py:167 | the penetration keys are the first min(6, cells−2) of "10","100","500","1000","1500","2000" |
| AmmoTables.PenRowDistance | wt_wiki_ground_parser.py:167 | the k-th distance key maps to int(cell k+2) |
| AmmoTables.DistanceKeysDistinct | wt_wiki_ground_parser.py:167 | the distance keys are distinct, so the zip loses no cell |
| AmmoTables.ParsePenetration | wt_wiki_ground_parser.py:149-169 | raises exactly when the table does not decode; otherwise returns distinct fresh objects whose values are the decoded rounds, in row order |
| AmmoTables.AppendNew | wt_wiki_ground_parser.py:168 | a fresh round object is appended and the earlier objects stay |
| AmmoTables.OptionalCell | wt_wiki_ground_parser.py:140-145 | an "N/A" cell keeps the previous value, any other cell sets it from the cell |
| AmmoTables.ShellRowUpdate | wt_wiki_ground_parser.py:137-145 | velocity is int of cell 2 without commas; mass is float of cell 3 without commas; ricochet zips 0%/50%/100% with the degree-free cells from 7; the N/A rules for cells 4-6 apply; it raises exactly when a conversion fails |
| AmmoTables.ShellRowOk | wt_wiki_ground_parser.py:132-136 | a row goes through exactly when it goes through for every round of the list |
| AmmoTables.ShellRowAt | wt_wiki_ground_parser.py:133-136 | round i after a row is that row applied to round i, and the length stays |
| AmmoTables.ShellRowsIdentity | wt_wiki_ground_parser.py:131-145 | the pass never changes the list's length, order, names, types or penetration maps |
| AmmoTables.UnnamedRoundUntouched | wt_wiki_ground_parser.py:135-136 | a round that no row names is left exactly as it was |
| AmmoTables.NotApplicableKeeps | wt_wiki_ground_parser.py:140-145 | N/A in cells 4, 5, 6 keeps fuse delay, fuse_sensetivity and explosive mass |
| AmmoTables.ApplyShellRow | wt_wiki_ground_parser.py:134-145 | the round object takes the value the row gives it, and is unchanged when the row raises |
| AmmoTables.ApplyShellRowAt | wt_wiki_ground_parser.py:133-145 | only the object at the slot changes |
| AmmoTables.ApplyShellRowAll | wt_wiki_ground_parser.py:133-145 | the objects' values become the row applied to every round of the list |
| AmmoTables.ParseShellDetails | wt_wiki_ground_parser.py:121-145 | the objects' values become the shell-details table applied to their old values; it raises exactly when that does |
| ArmamentDecoder.ArmamentName | wt_wiki_ground_parser.py:192-201 | the trimmed anchor text, else the trimmed element text, else "" and never an error; in the earlier revision (wt_wiki_parser.py:167) the verbatim anchor text, and no anchor raises |
| ArmamentDecoder.CurrentNameTrimmed | wt_wiki_ground_parser.py:196-199 | the current name is always trimmed, and the element text is ignored once there is an anchor |
| ArmamentDecoder.CountStat | wt_wiki_ground_parser.py:205-216 | a count needs the value element and an integer before the unit |
| ArmamentDecoder.CountBeforeUnit | wt_wiki_ground_parser.py:207 | the count is read from the text before the first occurrence of the unit, with its spaces removed; whatever follows is ignored |
| ArmamentDecoder.CountGrouped | wt_wiki_ground_parser.py:207 | digits split by one thousands space before " rounds" or " shots" read as the digits joined |
| ArmamentDecoder.CountThousands | wt_wiki_ground_parser.py:207 | an example of CountGrouped, not a separate property: "1 200 rounds", split at " rounds", reads as 1200 |
| ArmamentDecoder.CountDecimal | wt_wiki_ground_parser.py:207 | a count written in decimal before its unit reads back as that count |
| ArmamentDecoder.OrderGuidance | wt_wiki_ground_parser.py:220-223 | the elevation is the larger angle, the depression the smaller, and both come from the input |
| ArmamentDecoder.OrderGuidanceSymmetric | wt_wiki_ground_parser.py:220-223 | swapping the two angles gives the same guidance |
| ArmamentDecoder.DecodeGuidanceText | wt_wiki_ground_parser.py:219-223 | "a° / b°" decodes to the ordered pair of a and b (the same in wt_wiki_parser.py:183-187) |
| ArmamentDecoder.DecodeGuidanceOneAngle | wt_wiki_ground_parser.py:219-220 | a value with no " / " once the degree signs are gone has one angle and raises |
| ArmamentDecoder.OrderReload | wt_wiki_ground_parser.py:234-238 | the basic time is the larger reload time, the ace time the smaller |
| ArmamentDecoder.ReloadList | wt_wiki_ground_parser.py:226-232 | the indent line is read when present, else the block's value; a failed lookup keeps an earlier block's times, and with none it raises |
| ArmamentDecoder.ApplyReloads | wt_wiki_ground_parser.py:234-241 | two or more times give ordered basic/aces and leave the autoloader flag alone; one time sets the autoloader and both tiers; no time raises; nothing else changes |
| ArmamentDecoder.EarlierNoAutoloader | wt_wiki_parser.py:190-194 | the earlier revision needs two times and never sets the autoloader |
| ArmamentDecoder.KindOfNames | wt_wiki_ground_parser.py:204-224 | exactly the six stat names are acted on |
| ArmamentDecoder.WithCount | wt_wiki_ground_parser.py:205-216 | each count goes to its own attribute and to no other |
| ArmamentDecoder.StatStepOther | wt_wiki_ground_parser.py:204-224 | a block without a name raises; a block with another name changes nothing |
| ArmamentDecoder.StatStepCount | wt_wiki_ground_parser.py:205-216 | a count block sets its attribute to its count, and raises exactly when the value is missing or holds no count |
| ArmamentDecoder.ReloadFallback | wt_wiki_ground_parser.py:226-241 | a "Reload" block whose lookup fails reuses the previous block's times, and raises when there were none |
| ArmamentDecoder.DecodeStatsDefaults | wt_wiki_ground_parser.py:204-241 | blocks with other names leave the class defaults |
| ArmamentDecoder.StabilizerUnchanged | wt_wiki_ground_parser.py:244-254 | "Autoloader" and unknown features leave the stabilizer as it was |
| ArmamentDecoder.StabilizerLastWins | wt_wiki_ground_parser.py:244-254 | the last feature that names a stabilizer decides it |
| ArmamentDecoder.SetCount | wt_wiki_ground_parser.py:207-216 | the gun object's stats become the count written to its attribute |
| ArmamentDecoder.ApplyCount | wt_wiki_ground_parser.py:205-216 | a count block on the gun object does what the value-level step does |
| ArmamentDecoder.ApplyGuidance | wt_wiki_ground_parser.py:217-223 | a guidance block on the gun object does what the value-level step does |
| ArmamentDecoder.SetReloads | wt_wiki_ground_parser.py:234-241 | the gun object's stats become the applied reload times |
| ArmamentDecoder.ApplyReload | wt_wiki_ground_parser.py:224-241 | a "Reload" block on the gun object and the local `reloads` does what the value-level step does |
| ArmamentDecoder.ApplyStat | wt_wiki_ground_parser.py:204-241 | one stat block on the gun object does what the value-level step does |
| ArmamentDecoder.ApplyStats | wt_wiki_ground_parser.py:204-241 | the stat loop on the gun object ends in the stats of the value-level loop, and raises exactly when that does |
| ArmamentDecoder.ApplyFeatures | wt_wiki_ground_parser.py:244-254 | the feature loop on the gun object ends in the stabilizer of the value-level loop |
| ArmamentDecoder.DecodeArmamentOf | wt_wiki_ground_parser.py:192-254 | a gun is its name, its stat loop and, in the current revision, its feature loop |
| ArmamentDecoder.DecodeInto | wt_wiki_ground_parser.py:203-254 | a fresh gun object ends with the decoded stats |
| ArmamentDecoder.ParseArmament | wt_wiki_ground_parser.py:172-258 | a fresh gun object with no rounds, carrying the decoded name and attributes; raises exactly when the decoding does |
| VehicleWalk.FirstTableReadsLast | wt_wiki_ground_parser.py:51-54 | the first table reads its caption from the last one (`tables[-1]`); when that gives none and the first table lists two classes, the walk raises |
| VehicleWalk.UnmatchedGunEmpty | wt_wiki_ground_parser.py:50-65 | on a whole page, a gun whose name contains none of the captions the two-class tables read ends with no rounds, the empty `ammo_types` default |
| VehicleWalk.Caption | wt_wiki_ground_parser.py:53-54 | the caption is the previous table's trimmed header anchor text, or stays when there is none (unbound raises); in the earlier revision (wt_wiki_parser.py:52) it is the header text with 'n's and then spaces stripped |
| VehicleWalk.TableKindOf | wt_wiki_ground_parser.py:56-58 | a table is a penetration or shell-details table exactly when its (trimmed) header text says so |
| VehicleWalk.OtherTablesIgnored | wt_wiki_ground_parser.py:52 | a table without exactly two classes changes nothing |
| VehicleWalk.ListStepKeeps | wt_wiki_ground_parser.py:56-61 | a table adds at most one replaced list and leaves owners and caption |
| VehicleWalk.TableStepParts | wt_wiki_ground_parser.py:52-65 | a two-class table is its caption, its kind, its list step and the hand-out, in that order |
| VehicleWalk.TableStepKeeps | wt_wiki_ground_parser.py:52-65 | one table keeps replaced lists and gun count, sets the caption, and gives the current list to exactly the matching guns (the last write wins) |
| VehicleWalk.PenetrationReplaces | wt_wiki_ground_parser.py:56-57 | a penetration table replaces the current list by its own rounds |
| VehicleWalk.ShellDetailsMerges | wt_wiki_ground_parser.py:58-59 | a shell-details table merges into the current list only when it is not empty |
| VehicleWalk.EarlierCaption | wt_wiki_parser.py:52 | the earlier caption never fails once the header cell is there, and ignores the caption so far |
| VehicleWalk.WalkKeeps | wt_wiki_ground_parser.py:51-65 | the whole walk keeps one owner per gun, owners that exist, and replaced lists unchanged |
| VehicleWalk.WalkTablesKeeps | wt_wiki_ground_parser.py:49-65 | after the walk every gun holds an existing list |
| VehicleWalk.UnmatchedGunKeepsNothing | wt_wiki_ground_parser.py:52-65 | a gun whose name contains neither the caption bound so far nor any caption a two-class table reads from its predecessor keeps the list it held |
| VehicleWalk.FirstListStaysEmpty | wt_wiki_ground_parser.py:49-60 | the list every gun starts with stays empty through the walk |
| VehicleWalk.AssignList | wt_wiki_ground_parser.py:62-65 | the gun objects whose names contain the caption now hold the list; the others keep theirs |
| VehicleWalk.MirrorsAmmo | wt_wiki_ground_parser.py:65 | a gun object holds the rounds of the list the walk gave it |
| VehicleWalk.StepPenetration | wt_wiki_ground_parser.py:56-57 | fresh objects for the table's rounds become the current list |
| VehicleWalk.StepShellDetails | wt_wiki_ground_parser.py:58-59 | the current objects are updated in place; the replaced ones stay |
| VehicleWalk.ApplyListStep | wt_wiki_ground_parser.py:56-61 | the current list's objects follow the value-level list step |
| VehicleWalk.ApplyAssign | wt_wiki_ground_parser.py:62-65 | the matching gun objects share the current list's objects |
| VehicleWalk.ApplyTable | wt_wiki_ground_parser.py:52-65 | one two-class table on the objects follows the value-level step |
| VehicleWalk.ApplyTables | wt_wiki_ground_parser.py:49-65 | raises exactly when the walk does; every gun object holds the rounds of its list, and guns on the same list hold the same objects |
| VehicleParser.ModOfName | wt_wiki_ground_parser.py:93-115 | a name is recognised as modification k exactly when its trimmed text is k's name |
| VehicleParser.ModOfTextName | wt_wiki_parser.py:75-93 | the same on the compared text; the earlier revision has no "Improved optics" |
| VehicleParser.WithMod | wt_wiki_ground_parser.py:94-115 | a recognised modification switches on its own flag and leaves every other one |
| VehicleParser.ModsAfterClosed | wt_wiki_ground_parser.py:93-115 | the loop switches on exactly the recognised modifications |
| VehicleParser.ModsHas | wt_wiki_ground_parser.py:93-115 | a flag is on after the loop exactly when it was before or some name asks for it; none is switched off |
| VehicleParser.ModsOrderFree | wt_wiki_ground_parser.py:93-115 | the order of the names does not matter |
| VehicleParser.ModsRepeat | wt_wiki_ground_parser.py:93-115 | repeated names have no further effect |
| VehicleParser.ModsUnknown | wt_wiki_ground_parser.py:93-115 | an unknown name changes nothing, wherever it stands |
| VehicleParser.EarlierNoScouting | wt_wiki_parser.py:74-93 | the earlier revision never sets `scouting` |
| VehicleParser.SetMod | wt_wiki_ground_parser.py:94-115 | the tank's equipment becomes that with the modification switched on |
| VehicleParser.ApplyModifications | wt_wiki_ground_parser.py:93-115 | the modification loop on the tank ends in the value-level loop's equipment |
| VehicleParser.FeatureFlagsClosed | wt_wiki_ground_parser.py:79-87 | the vehicle is amphibious exactly when some trimmed feature text is "Amphibious"; nothing else changes |
| VehicleParser.ApplyVehicleFeatures | wt_wiki_ground_parser.py:79-87 | the feature loop on the tank ends in the value-level loop's equipment |
| VehicleParser.VehicleName | wt_wiki_ground_parser.py:44 | the `general_info_name` text, untrimmed, which must be there; "Tank1" in the earlier revision (wt_wiki_parser.py:43) |
| VehicleParser.DecodeVehicleOk | wt_wiki_ground_parser.py:42-65 | the parse goes through exactly when the name is there, every weapon block decodes and the walk goes through; the guns are the decoded blocks, one each, in page order |
| VehicleParser.DecodeVehicleParts | wt_wiki_ground_parser.py:11-117 | a parse is its name, its guns and walk, and its equipment |
| VehicleParser.EquipmentFlags | wt_wiki_ground_parser.py:79-115 | a modification flag is on exactly when some name asks for it; amphibious exactly when a current-revision feature says so; the earlier revision leaves `scouting` unset |
| VehicleParser.EquipTank | wt_wiki_ground_parser.py:79-115 | the tank's equipment becomes that of the feature and modification loops |
| VehicleParser.ParseArmaments | wt_wiki_ground_parser.py:45-46 | one fresh, distinct gun object per weapon block, in order, with its decoded name and attributes |
| VehicleParser.AddGun | wt_wiki_ground_parser.py:46 | the gun object is appended and the guns stay distinct |
| VehicleParser.BuildGuns | wt_wiki_ground_parser.py:44-65 | the gun loop and the walk leave one gun object per decoded gun, each holding its walk rounds, sharing lists as the walk does |
| VehicleParser.NewTank | wt_wiki_ground_parser.py:44 | a fresh tank with the name and the constructor's values |
| VehicleParser.Assemble | wt_wiki_ground_parser.py:45-65 | the guns are built and name, equipment and untouched attributes stay |
| VehicleParser.ParseGroundVehicle | wt_wiki_ground_parser.py:11-117 | raises exactly when the value-level parse does; otherwise a fresh tank with the name, the guns, their rounds, the equipment, and the constructor's values elsewhere |
| Scraper.Chr | scrape_wt_wiki.py:207 | a character comes back exactly for the code points outside the surrogates (0..0xD7FF and 0xE000..0x10FFFF), and it has the given code point |
| Scraper.Codes | scrape_wt_wiki.py:200-201 | one code per character, in order, each a non-empty run of digits whose value is that character's code point |
| Scraper.StringToOrdinal | scrape_wt_wiki.py:198-202 | the loop and the trailing rstrip give the code points joined by the delimiter, with no trailing delimiter when it holds no digit |
| Scraper.AccumulatedJoin | scrape_wt_wiki.py:199-201 | before the strip, the output is the join followed by one delimiter |
| Scraper.OrdinalsJoin | scrape_wt_wiki.py:198-202 | the encoding is the code points joined by the delimiter; "" for "" |
| Scraper.OrdinalFields | scrape_wt_wiki.py:200-202 | a non-empty input gives one non-empty digit field per character, with that character's code point |
| Scraper.DecodeField | scrape_wt_wiki.py:207 | `chr(int(x))` succeeds exactly when x is an integer that is a code point |
| Scraper.OrdinalToString | scrape_wt_wiki.py:204-208 | the decoding loop gives the value-level decoding |
| Scraper.DecodeOk | scrape_wt_wiki.py:206-207 | decoding succeeds exactly when the delimiter is non-empty and every split piece decodes |
| Scraper.DecodeEmpty | scrape_wt_wiki.py:206-207 | decoding "" fails |
| Scraper.RoundTrip | scrape_wt_wiki.py:198-208 | decoding the encoding of a non-empty string gives it back, for any non-empty digit-free delimiter |
| Scraper.RoundTripDash | scrape_wt_wiki.py:198-208 | with "-" the round trip holds for every non-empty string; "" encodes to "" and does not decode |
| Scraper.OrdinalsInjective | scrape_wt_wiki.py:198-202 | distinct names get distinct file names |
| Scraper.TerrainPrecedence | scrape_wt_wiki.py:138-146 | "ground" wins over "aviation", which wins over "fleet"; no terrain exactly when no word occurs |
| Scraper.TerrainIgnoresCase | scrape_wt_wiki.py:138-142 | the rule does not depend on letter case |
| Scraper.GetNation | scrape_wt_wiki.py:89-94 | the loop gives the value-level nation index |
| Scraper.NationKeys | scrape_wt_wiki.py:90-93 | the keys are the texts of the anchors at odd positions of the first row |
| Scraper.NationUrls | scrape_wt_wiki.py:92-93 | each value is `BASE_URL` + the href of an odd-position anchor with that text |
| Scraper.NationLastWins | scrape_wt_wiki.py:92-93 | a later duplicate text overwrites an earlier one, so the last anchor with a text gives its URL |
| Collections.ZipDict | wt_wiki_ground_parser.py:167 | `dict(zip(ks, vs))` with distinct keys maps the first min(\|ks\|, \|vs\|) keys to the values at their positions |
| Collections.DictOfLastWins | scrape_wt_wiki.py:93 | a pair that no later pair overwrites gives its key's value |
| Collections.OddIndexed | scrape_wt_wiki.py:90 | `s[1::2]`: the elements at odd positions, in order |
| Text.Split | wt_wiki_ground_parser.py:219 | `str.split(sep)` |
| Text.StripRight | wt_wiki_ground_parser.py:228 | `str.rstrip(chars)` removes trailing characters of the set |
| Text.Lower | scrape_wt_wiki.py:138 | no ASCII capital is left; each capital becomes its small letter and every other character is kept |
| Numbers.ParseIntString | wt_wiki_ground_parser.py:219 | `int(str(i)) == i` |

## Left out

- HTML parsing with BeautifulSoup (`find`, `find_all`, `SoupStrainer`, `.text`) is a
  foreign library. Pages are given as the plain data of `Markup.Page`.
- The `print` diagnostics of both parsers are side channels and are left out. This
  covers each gun and tank `__dict__` and the "Feature WARN" lines.
- Network and file I/O is left out:
  - `requests.get`;
  - the file and directory writes and `naming.lst` of `get_vehicle_specs`;
  - `os.listdir` in `check_local_vehicle`;
  - the fetches in `get_aviation_nations`, `get_ground_nations`, `get_fleet_nations`
    and `get_vehicles_by_nation`.

  Only the pure parts are modelled: the terrain rule, the codec and the nation index.
- `parse_changelog` and `get_wiki_changelog` are a stub.
- `unicode_checker.py` is a script over files.
- The `__main__` functions. The two parsers' `__main__`s read local test pages. The
  earlier one passes `html_tag=""`, a keyword `parse_ground_vehicle` does not accept,
  so it raises `TypeError` before parsing. The scraper's `__main__` fetches and
  files a fixed list of pages through `get_vehicle_specs`, which is I/O and left out
  above.
- The TODO groups (rank, battle rating, armour, mobility, ATGM and others) have no
  code in the source. The no-op loop over the non-weapon `specs_info` blocks is not
  modelled either.
- `int()` and `float()` accept an optional sign, decimal digits and, for `float`, one
  decimal point, after trimming white space. Underscores, exponents, `inf`/`nan` and
  non-ASCII digits are not accepted. Floats are exact reals, not IEEE doubles.
- `str.strip()` trims exactly the characters Python's `str.isspace()` accepts
  (9-13, 28-32, 0x85, 0xA0, 0x1680, 0x2000-0x200A, 0x2028, 0x2029, 0x202F, 0x205F
  and 0x3000).
- Text.Lower: folds the ASCII letters only, whereas `str.lower()` also folds the
  letters of other scripts.
- Python's exception types are not told apart. Every exception, swallowed ones
  excepted, is the one value `Raised`.
- Scraper.DecodeField: fails on surrogate code points (0xD800-0xDFFF). Python's
  `chr()` accepts them, but a Dafny `char` cannot hold them.
- Scraper.GetNation: anchors whose `.string` is `None` or that lack `href` are
  outside the model (`Anchor` always has both).
- Scraper.TerrainPrecedence: a category list without the `ul.li` element is outside
  the model. In the source that is an AttributeError.
- Scraper.StringToOrdinal: with a delimiter that holds digits, the trailing `rstrip`
  also eats digits of the last code point. The model computes that exactly
  (`Ordinals`). The round trip is proved only for digit-free delimiters, which
  covers the default "-".
- AmmoTables.ApplyShellRow: writes nothing when a row raises. The source may already
  have set the velocity before a later cell raises. The difference is not observable,
  because the whole parse is then aborted.
- VehicleParser.ParseGroundVehicle: returns the tank it builds. The source builds the
  same tank and returns `None`.
- VehicleParser.SetMod: `parsed_tank.smokes = True` is modelled as the integer 1,
  which is Python's value of `True`.
- Class-level defaults of `Armament` (`ammo_types`, `vertical_guidance`,
  `reload_time`) are instance fields initialised to the same values. The parser only
  rebinds them and never mutates them in place, so the sharing is not observable.
- `Tank.__str__` is the default object repr (wt_wiki_ground_parser.py:117), used only
  for printing, and is left out.
