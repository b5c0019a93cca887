/** The Azure region-name normalisation table of the metric wrapper: a fixed map from a region's
    display name ("East US 2") to its slug ("eastus2"). */
module Regions {
  import opened Options

  /** One row of the table. */
  datatype Region = Region(display: string, slug: string)

  // The 25 regions the wrapper knows, in the order of its switch statement, written as five
  // groups of five so that a fact about one row need not unfold the whole table.
  const Group0: seq<Region> := [
    Region("East US 2", "eastus2"),
    Region("West US 2", "westus2"),
    Region("South Central US", "southcentralus"),
    Region("West Central US", "westcentralus"),
    Region("East US", "eastus")
  ]
  const Group1: seq<Region> := [
    Region("North Central US", "northcentralus"),
    Region("North Europe", "northeurope"),
    Region("Canada East", "canadaeast"),
    Region("Central US", "centralus"),
    Region("West US", "westus")
  ]
  const Group2: seq<Region> := [
    Region("West Europe", "westeurope"),
    Region("Central India", "centralindia"),
    Region("Southeast Asia", "southeastasia"),
    Region("Canada Central", "canadacentral"),
    Region("Korea Central", "koreacentral")
  ]
  const Group3: seq<Region> := [
    Region("France Central", "francecentral"),
    Region("South India", "southindia"),
    Region("Australia East", "australiaeast"),
    Region("Australia Southeast", "australiasoutheast"),
    Region("Japan West", "japanwest")
  ]
  const Group4: seq<Region> := [
    Region("UK West", "ukwest"),
    Region("UK South", "uksouth"),
    Region("Japan East", "japaneast"),
    Region("East Asia", "eastasia"),
    Region("Brazil South", "brazilsouth")
  ]
  /** The whole table. */
  const Table: seq<Region> := Group0 + Group1 + Group2 + Group3 + Group4

  /** `display` is the display name of some row of the table. */
  predicate Known(display: string) {
    exists i :: 0 <= i < |Table| && Table[i].display == display
  }

  /** No two rows of `rows` share a display name (Java refuses duplicate case labels). */
  predicate DistinctDisplays(rows: seq<Region>) {
    forall i, j :: 0 <= i < j < |rows| ==> rows[i].display != rows[j].display
  }

  /** No two rows of `rows` share a slug. */
  predicate DistinctSlugs(rows: seq<Region>) {
    forall i, j :: 0 <= i < j < |rows| ==> rows[i].slug != rows[j].slug
  }

  /** A string `switch`: the slug of the first row whose display name is `s`, if any. */
  function Lookup(rows: seq<Region>, s: string): (slug: Option<string>)
    ensures slug.Some? <==> exists i :: 0 <= i < |rows| && rows[i].display == s
    ensures slug.Some? ==> exists i :: 0 <= i < |rows| && rows[i] == Region(s, slug.value)
  {
    if |rows| == 0 then None
    else if rows[0].display == s then Some(rows[0].slug)
    else Lookup(rows[1..], s)
  }

  /** The wrapper's `getRegionName`: the slug of a known display name, `None` for a null
      input and for every other string, the empty string included. */
  function RegionName(region: Option<string>): (slug: Option<string>)
    ensures slug.Some? <==> region.Some? && Known(region.value)
    ensures slug.Some? ==> exists i :: 0 <= i < |Table| && Table[i] == Region(region.value, slug.value)
  {
    match region
    case None => None
    case Some(r) => Lookup(Table, r)
  }

  /** ASCII lower-casing of one character. */
  function Lower(c: char): char {
    if 'A' <= c <= 'Z' then (c as int + 32) as char else c
  }

  /** The slug naming rule: `s[i..]` lower-cased, with its spaces dropped. */
  function NormalizeFrom(s: string, i: nat): string
    requires i <= |s|
    decreases |s| - i
  {
    if i == |s| then ""
    else if s[i] == ' ' then NormalizeFrom(s, i + 1)
    else [Lower(s[i])] + NormalizeFrom(s, i + 1)
  }

  function Normalize(s: string): string {
    NormalizeFrom(s, 0)
  }

  /** `slug[j..]` follows the naming rule for `display[i..]`, checked character by character. */
  predicate SlugMatches(display: string, i: nat, slug: string, j: nat)
    requires i <= |display|
    decreases |display| - i
  {
    if i == |display| then j == |slug|
    else if display[i] == ' ' then SlugMatches(display, i + 1, slug, j)
    else j < |slug| && slug[j] == Lower(display[i]) && SlugMatches(display, i + 1, slug, j + 1)
  }

  /** The character-by-character check decides the naming rule. */
  lemma {:induction false} SlugMatchesIffNormalized(display: string, i: nat, slug: string, j: nat)
    requires i <= |display| && j <= |slug|
    ensures SlugMatches(display, i, slug, j) <==> slug[j..] == NormalizeFrom(display, i)
    decreases |display| - i
  {
    if i == |display| {
    } else if display[i] == ' ' {
      SlugMatchesIffNormalized(display, i + 1, slug, j);
    } else if j < |slug| {
      SlugMatchesIffNormalized(display, i + 1, slug, j + 1);
      assert slug[j..] == [slug[j]] + slug[j + 1..];
    }
  }

  /** `r`'s slug is its display name lower-cased with the spaces dropped. */
  predicate FollowsSlugRule(r: Region) {
    SlugMatches(r.display, 0, r.slug, 0)
  }

  // The naming rule, checked for each row of the table on its own; the intermediate
  // assertions only split the check into short steps.
  lemma SlugRuleRow0() ensures FollowsSlugRule(Group0[0]) {
    assert SlugMatches("East US 2", 6, "eastus2", 5);
    assert SlugMatches("East US 2", 3, "eastus2", 3);
    assert SlugMatches("East US 2", 0, "eastus2", 0);
  }
  lemma SlugRuleRow1() ensures FollowsSlugRule(Group0[1]) {
    assert SlugMatches("West US 2", 6, "westus2", 5);
    assert SlugMatches("West US 2", 3, "westus2", 3);
    assert SlugMatches("West US 2", 0, "westus2", 0);
  }
  lemma SlugRuleRow2() ensures FollowsSlugRule(Group0[2]) {
    assert SlugMatches("South Central US", 13, "southcentralus", 12);
    assert SlugMatches("South Central US", 10, "southcentralus", 9);
    assert SlugMatches("South Central US", 7, "southcentralus", 6);
    assert SlugMatches("South Central US", 4, "southcentralus", 4);
    assert SlugMatches("South Central US", 1, "southcentralus", 1);
    assert SlugMatches("South Central US", 0, "southcentralus", 0);
  }
  lemma SlugRuleRow3() ensures FollowsSlugRule(Group0[3]) {
    assert SlugMatches("West Central US", 12, "westcentralus", 11);
    assert SlugMatches("West Central US", 9, "westcentralus", 8);
    assert SlugMatches("West Central US", 6, "westcentralus", 5);
    assert SlugMatches("West Central US", 3, "westcentralus", 3);
    assert SlugMatches("West Central US", 0, "westcentralus", 0);
  }
  lemma SlugRuleRow4() ensures FollowsSlugRule(Group0[4]) {
    assert SlugMatches("East US", 4, "eastus", 4);
    assert SlugMatches("East US", 1, "eastus", 1);
    assert SlugMatches("East US", 0, "eastus", 0);
  }
  lemma SlugRuleRow5() ensures FollowsSlugRule(Group1[0]) {
    assert SlugMatches("North Central US", 13, "northcentralus", 12);
    assert SlugMatches("North Central US", 10, "northcentralus", 9);
    assert SlugMatches("North Central US", 7, "northcentralus", 6);
    assert SlugMatches("North Central US", 4, "northcentralus", 4);
    assert SlugMatches("North Central US", 1, "northcentralus", 1);
    assert SlugMatches("North Central US", 0, "northcentralus", 0);
  }
  lemma SlugRuleRow6() ensures FollowsSlugRule(Group1[1]) {
    assert SlugMatches("North Europe", 9, "northeurope", 8);
    assert SlugMatches("North Europe", 6, "northeurope", 5);
    assert SlugMatches("North Europe", 3, "northeurope", 3);
    assert SlugMatches("North Europe", 0, "northeurope", 0);
  }
  lemma SlugRuleRow7() ensures FollowsSlugRule(Group1[2]) {
    assert SlugMatches("Canada East", 8, "canadaeast", 7);
    assert SlugMatches("Canada East", 5, "canadaeast", 5);
    assert SlugMatches("Canada East", 2, "canadaeast", 2);
    assert SlugMatches("Canada East", 0, "canadaeast", 0);
  }
  lemma SlugRuleRow8() ensures FollowsSlugRule(Group1[3]) {
    assert SlugMatches("Central US", 7, "centralus", 7);
    assert SlugMatches("Central US", 4, "centralus", 4);
    assert SlugMatches("Central US", 1, "centralus", 1);
    assert SlugMatches("Central US", 0, "centralus", 0);
  }
  lemma SlugRuleRow9() ensures FollowsSlugRule(Group1[4]) {
    assert SlugMatches("West US", 4, "westus", 4);
    assert SlugMatches("West US", 1, "westus", 1);
    assert SlugMatches("West US", 0, "westus", 0);
  }
  lemma SlugRuleRow10() ensures FollowsSlugRule(Group2[0]) {
    assert SlugMatches("West Europe", 8, "westeurope", 7);
    assert SlugMatches("West Europe", 5, "westeurope", 4);
    assert SlugMatches("West Europe", 2, "westeurope", 2);
    assert SlugMatches("West Europe", 0, "westeurope", 0);
  }
  lemma SlugRuleRow11() ensures FollowsSlugRule(Group2[1]) {
    assert SlugMatches("Central India", 10, "centralindia", 9);
    assert SlugMatches("Central India", 7, "centralindia", 7);
    assert SlugMatches("Central India", 4, "centralindia", 4);
    assert SlugMatches("Central India", 1, "centralindia", 1);
    assert SlugMatches("Central India", 0, "centralindia", 0);
  }
  lemma SlugRuleRow12() ensures FollowsSlugRule(Group2[2]) {
    assert SlugMatches("Southeast Asia", 11, "southeastasia", 10);
    assert SlugMatches("Southeast Asia", 8, "southeastasia", 8);
    assert SlugMatches("Southeast Asia", 5, "southeastasia", 5);
    assert SlugMatches("Southeast Asia", 2, "southeastasia", 2);
    assert SlugMatches("Southeast Asia", 0, "southeastasia", 0);
  }
  lemma SlugRuleRow13() ensures FollowsSlugRule(Group2[3]) {
    assert SlugMatches("Canada Central", 11, "canadacentral", 10);
    assert SlugMatches("Canada Central", 8, "canadacentral", 7);
    assert SlugMatches("Canada Central", 5, "canadacentral", 5);
    assert SlugMatches("Canada Central", 2, "canadacentral", 2);
    assert SlugMatches("Canada Central", 0, "canadacentral", 0);
  }
  lemma SlugRuleRow14() ensures FollowsSlugRule(Group2[4]) {
    assert SlugMatches("Korea Central", 10, "koreacentral", 9);
    assert SlugMatches("Korea Central", 7, "koreacentral", 6);
    assert SlugMatches("Korea Central", 4, "koreacentral", 4);
    assert SlugMatches("Korea Central", 1, "koreacentral", 1);
    assert SlugMatches("Korea Central", 0, "koreacentral", 0);
  }
  lemma SlugRuleRow15() ensures FollowsSlugRule(Group3[0]) {
    assert SlugMatches("France Central", 11, "francecentral", 10);
    assert SlugMatches("France Central", 8, "francecentral", 7);
    assert SlugMatches("France Central", 5, "francecentral", 5);
    assert SlugMatches("France Central", 2, "francecentral", 2);
    assert SlugMatches("France Central", 0, "francecentral", 0);
  }
  lemma SlugRuleRow16() ensures FollowsSlugRule(Group3[1]) {
    assert SlugMatches("South India", 8, "southindia", 7);
    assert SlugMatches("South India", 5, "southindia", 5);
    assert SlugMatches("South India", 2, "southindia", 2);
    assert SlugMatches("South India", 0, "southindia", 0);
  }
  lemma SlugRuleRow17() ensures FollowsSlugRule(Group3[2]) {
    assert SlugMatches("Australia East", 11, "australiaeast", 10);
    assert SlugMatches("Australia East", 8, "australiaeast", 8);
    assert SlugMatches("Australia East", 5, "australiaeast", 5);
    assert SlugMatches("Australia East", 2, "australiaeast", 2);
    assert SlugMatches("Australia East", 0, "australiaeast", 0);
  }
  lemma SlugRuleRow18Tail() ensures SlugMatches("Australia Southeast", 10, "australiasoutheast", 9) {
    assert SlugMatches("Australia Southeast", 16, "australiasoutheast", 15);
    assert SlugMatches("Australia Southeast", 13, "australiasoutheast", 12);
  }
  lemma SlugRuleRow18() ensures FollowsSlugRule(Group3[3]) {
    SlugRuleRow18Tail();
    assert SlugMatches("Australia Southeast", 7, "australiasoutheast", 7);
    assert SlugMatches("Australia Southeast", 4, "australiasoutheast", 4);
    assert SlugMatches("Australia Southeast", 1, "australiasoutheast", 1);
    assert SlugMatches("Australia Southeast", 0, "australiasoutheast", 0);
  }
  lemma SlugRuleRow19() ensures FollowsSlugRule(Group3[4]) {
    assert SlugMatches("Japan West", 7, "japanwest", 6);
    assert SlugMatches("Japan West", 4, "japanwest", 4);
    assert SlugMatches("Japan West", 1, "japanwest", 1);
    assert SlugMatches("Japan West", 0, "japanwest", 0);
  }
  lemma SlugRuleRow20() ensures FollowsSlugRule(Group4[0]) {
    assert SlugMatches("UK West", 4, "ukwest", 3);
    assert SlugMatches("UK West", 1, "ukwest", 1);
    assert SlugMatches("UK West", 0, "ukwest", 0);
  }
  lemma SlugRuleRow21() ensures FollowsSlugRule(Group4[1]) {
    assert SlugMatches("UK South", 5, "uksouth", 4);
    assert SlugMatches("UK South", 2, "uksouth", 2);
    assert SlugMatches("UK South", 0, "uksouth", 0);
  }
  lemma SlugRuleRow22() ensures FollowsSlugRule(Group4[2]) {
    assert SlugMatches("Japan East", 7, "japaneast", 6);
    assert SlugMatches("Japan East", 4, "japaneast", 4);
    assert SlugMatches("Japan East", 1, "japaneast", 1);
    assert SlugMatches("Japan East", 0, "japaneast", 0);
  }
  lemma SlugRuleRow23() ensures FollowsSlugRule(Group4[3]) {
    assert SlugMatches("East Asia", 6, "eastasia", 5);
    assert SlugMatches("East Asia", 3, "eastasia", 3);
    assert SlugMatches("East Asia", 0, "eastasia", 0);
  }
  lemma SlugRuleRow24() ensures FollowsSlugRule(Group4[4]) {
    assert SlugMatches("Brazil South", 9, "brazilsouth", 8);
    assert SlugMatches("Brazil South", 6, "brazilsouth", 6);
    assert SlugMatches("Brazil South", 3, "brazilsouth", 3);
    assert SlugMatches("Brazil South", 0, "brazilsouth", 0);
  }

  // Each group of five follows the naming rule.
  lemma SlugRuleGroup0()
    ensures forall i :: 0 <= i < 5 ==> FollowsSlugRule(Group0[i])
  {
    SlugRuleRow0(); SlugRuleRow1(); SlugRuleRow2(); SlugRuleRow3(); SlugRuleRow4();
  }

  lemma SlugRuleGroup1()
    ensures forall i :: 0 <= i < 5 ==> FollowsSlugRule(Group1[i])
  {
    SlugRuleRow5(); SlugRuleRow6(); SlugRuleRow7(); SlugRuleRow8(); SlugRuleRow9();
  }

  lemma SlugRuleGroup2()
    ensures forall i :: 0 <= i < 5 ==> FollowsSlugRule(Group2[i])
  {
    SlugRuleRow10(); SlugRuleRow11(); SlugRuleRow12(); SlugRuleRow13(); SlugRuleRow14();
  }

  lemma SlugRuleGroup3()
    ensures forall i :: 0 <= i < 5 ==> FollowsSlugRule(Group3[i])
  {
    SlugRuleRow15(); SlugRuleRow16(); SlugRuleRow17(); SlugRuleRow18(); SlugRuleRow19();
  }

  lemma SlugRuleGroup4()
    ensures forall i :: 0 <= i < 5 ==> FollowsSlugRule(Group4[i])
  {
    SlugRuleRow20(); SlugRuleRow21(); SlugRuleRow22(); SlugRuleRow23(); SlugRuleRow24();
  }

  /** Every slug of the table is its display name lower-cased with the spaces removed. */
  lemma TableSlugsNormalized()
    ensures forall i :: 0 <= i < |Table| ==> Table[i].slug == Normalize(Table[i].display)
  {
    SlugRuleGroup0();
    SlugRuleGroup1();
    SlugRuleGroup2();
    SlugRuleGroup3();
    SlugRuleGroup4();
    forall i | 0 <= i < |Table|
      ensures Table[i].slug == Normalize(Table[i].display)
    {
      SlugMatchesIffNormalized(Table[i].display, 0, Table[i].slug, 0);
    }
  }

  // The rows in groups of five: none shares a display name or a slug with a later row.
  lemma DisplaysUnique0To4()
    ensures forall i, j :: 0 <= i < 5 && i < j < |Table| ==> Table[i].display != Table[j].display
  {
  }

  lemma SlugsUnique0To4()
    ensures forall i, j :: 0 <= i < 5 && i < j < |Table| ==> Table[i].slug != Table[j].slug
  {
  }

  lemma DisplaysUnique5To9()
    ensures forall i, j :: 5 <= i < 10 && i < j < |Table| ==> Table[i].display != Table[j].display
  {
  }

  lemma SlugsUnique5To9()
    ensures forall i, j :: 5 <= i < 10 && i < j < |Table| ==> Table[i].slug != Table[j].slug
  {
  }

  lemma DisplaysUnique10To14()
    ensures forall i, j :: 10 <= i < 15 && i < j < |Table| ==> Table[i].display != Table[j].display
  {
  }

  lemma SlugsUnique10To14()
    ensures forall i, j :: 10 <= i < 15 && i < j < |Table| ==> Table[i].slug != Table[j].slug
  {
  }

  lemma DisplaysUnique15To19()
    ensures forall i, j :: 15 <= i < 20 && i < j < |Table| ==> Table[i].display != Table[j].display
  {
  }

  lemma SlugsUnique15To19()
    ensures forall i, j :: 15 <= i < 20 && i < j < |Table| ==> Table[i].slug != Table[j].slug
  {
  }

  lemma DisplaysUnique20To24()
    ensures forall i, j :: 20 <= i < 25 && i < j < |Table| ==> Table[i].display != Table[j].display
  {
  }

  lemma SlugsUnique20To24()
    ensures forall i, j :: 20 <= i < 25 && i < j < |Table| ==> Table[i].slug != Table[j].slug
  {
  }

  /** No display name occurs twice, so the switch has one case per name, and no two display
      names share a slug, so the table is injective. */
  lemma TableDistinct()
    ensures DistinctDisplays(Table)
    ensures DistinctSlugs(Table)
  {
    DisplaysUnique0To4();
    SlugsUnique0To4();
    DisplaysUnique5To9();
    SlugsUnique5To9();
    DisplaysUnique10To14();
    SlugsUnique10To14();
    DisplaysUnique15To19();
    SlugsUnique15To19();
    DisplaysUnique20To24();
    SlugsUnique20To24();
  }

  /** In a table without repeated display names the search finds each row's own slug. */
  lemma {:induction false} LookupFindsRow(rows: seq<Region>, i: nat)
    requires DistinctDisplays(rows) && i < |rows|
    ensures Lookup(rows, rows[i].display) == Some(rows[i].slug)
  {
    if i > 0 {
      assert rows[0].display != rows[i].display;
      assert rows[1..][i - 1] == rows[i];
      LookupFindsRow(rows[1..], i - 1);
    }
  }

  /** Each of the 25 listed display names yields exactly its listed slug. */
  lemma KnownRegionsHaveTheirSlug()
    ensures forall i :: 0 <= i < |Table| ==> RegionName(Some(Table[i].display)) == Some(Table[i].slug)
  {
    TableDistinct();
    forall i | 0 <= i < |Table|
      ensures RegionName(Some(Table[i].display)) == Some(Table[i].slug)
    {
      LookupFindsRow(Table, i);
    }
  }

  /** A search of a table without repeated slugs never maps two names to one slug. */
  lemma LookupInjective(rows: seq<Region>, a: string, b: string)
    requires DistinctSlugs(rows)
    requires Lookup(rows, a).Some? && Lookup(rows, a) == Lookup(rows, b)
    ensures a == b
  {
    var slug := Lookup(rows, a).value;
    var i :| 0 <= i < |rows| && rows[i] == Region(a, slug);
    var j :| 0 <= j < |rows| && rows[j] == Region(b, slug);
  }

  /** The empty string is no display name, so it has no slug. */
  lemma EmptyRegionHasNoSlug()
    ensures RegionName(Some("")) == None
  {
    assert forall i :: 0 <= i < |Table| ==> Table[i].display != "";
  }

  /** Two display names with the same slug are the same name. */
  lemma RegionNameInjective(a: string, b: string)
    requires RegionName(Some(a)).Some? && RegionName(Some(a)) == RegionName(Some(b))
    ensures a == b
  {
    TableDistinct();
    LookupInjective(Table, a, b);
  }

  /** Every slug `getRegionName` returns is its input lower-cased with the spaces removed. */
  lemma RegionNameNormalizes(region: string)
    requires RegionName(Some(region)).Some?
    ensures RegionName(Some(region)).value == Normalize(region)
  {
    TableSlugsNormalized();
    var slug := RegionName(Some(region)).value;
    var i :| 0 <= i < |Table| && Table[i] == Region(region, slug);
  }
}
