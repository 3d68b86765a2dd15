/**
 * The closed set of anatomical regions (frontend/types/types.ts) and the
 * REGION_ITEMS / ALL_REGIONS constants of frontend/constants/regions.ts.
 */
module Regions {
  import opened Sequences

  /** The `Region` string union: exactly nine identifiers. */
  datatype Region = Back | Thorax | Abdomen | Pelvis | Perineum | Head | Neck | UpperLimb | LowerLimb

  /** The string literal each variant of the union stands for. */
  function Key(r: Region): string {
    match r
    case Back => "back"
    case Thorax => "thorax"
    case Abdomen => "abdomen"
    case Pelvis => "pelvis"
    case Perineum => "perineum"
    case Head => "head"
    case Neck => "neck"
    case UpperLimb => "upperlimb"
    case LowerLimb => "lowerlimb"
  }

  /** One entry of REGION_ITEMS: the region identifier and its display label (`label` in the source; `label` is a Dafny keyword). */
  datatype RegionItem = RegionItem(key: Region, caption: string)

  /** REGION_ITEMS, in the order the home screen lists them. */
  const RegionItems: seq<RegionItem> := [
    RegionItem(Back, "Back"),
    RegionItem(Thorax, "Thorax"),
    RegionItem(Abdomen, "Abdomen"),
    RegionItem(Pelvis, "Pelvis"),
    RegionItem(Perineum, "Perineum"),
    RegionItem(UpperLimb, "Upper Limb"),
    RegionItem(LowerLimb, "Lower Limb"),
    RegionItem(Neck, "Neck"),
    RegionItem(Head, "Head")
  ]

  /** `items.map((item) => item.key)`. */
  function ItemKeys(items: seq<RegionItem>): (keys: seq<Region>)
    ensures |keys| == |items|
    ensures forall i :: 0 <= i < |items| ==> keys[i] == items[i].key
  {
    seq(|items|, i requires 0 <= i < |items| => items[i].key)
  }

  /** ALL_REGIONS: the keys of REGION_ITEMS. */
  const AllRegions: seq<Region> := ItemKeys(RegionItems)

  /** Distinct variants name distinct string literals. */
  lemma KeyInjective(a: Region, b: Region)
    ensures Key(a) == Key(b) <==> a == b
  {
  }

  /** REGION_ITEMS has nine entries with pairwise distinct keys. */
  lemma RegionItemsDistinct()
    ensures |RegionItems| == 9
    ensures forall i, j :: 0 <= i < j < |RegionItems| ==> RegionItems[i].key != RegionItems[j].key
  {
  }

  /** Every variant of the union appears in REGION_ITEMS and hence in ALL_REGIONS. */
  lemma EveryRegionListed(r: Region)
    ensures exists i :: 0 <= i < |RegionItems| && RegionItems[i].key == r
    ensures r in AllRegions
  {
    var i := match r
      case Back => 0
      case Thorax => 1
      case Abdomen => 2
      case Pelvis => 3
      case Perineum => 4
      case UpperLimb => 5
      case LowerLimb => 6
      case Neck => 7
      case Head => 8;
    assert RegionItems[i].key == r;
    assert AllRegions[i] == r;
  }

  /** ALL_REGIONS is total over the union: every map built over it covers every region. */
  lemma AllRegionsTotal()
    ensures forall r: Region :: r in AllRegions
  {
    forall r: Region
      ensures r in AllRegions
    {
      EveryRegionListed(r);
    }
  }

  /** ALL_REGIONS lists exactly the keys of REGION_ITEMS, in the same order, once each. */
  lemma AllRegionsAreItemKeys()
    ensures |AllRegions| == |RegionItems| == 9
    ensures forall i :: 0 <= i < |AllRegions| ==> AllRegions[i] == RegionItems[i].key
    ensures Distinct(AllRegions)
  {
    RegionItemsDistinct();
  }

  /** Each key carries its fixed display label. */
  lemma LabelsAreFixed()
    ensures |RegionItems| == 9
    ensures RegionItems[0] == RegionItem(Back, "Back")
    ensures RegionItems[1] == RegionItem(Thorax, "Thorax")
    ensures RegionItems[2] == RegionItem(Abdomen, "Abdomen")
    ensures RegionItems[3] == RegionItem(Pelvis, "Pelvis")
    ensures RegionItems[4] == RegionItem(Perineum, "Perineum")
    ensures RegionItems[5] == RegionItem(UpperLimb, "Upper Limb")
    ensures RegionItems[6] == RegionItem(LowerLimb, "Lower Limb")
    ensures RegionItems[7] == RegionItem(Neck, "Neck")
    ensures RegionItems[8] == RegionItem(Head, "Head")
  {
  }
}
