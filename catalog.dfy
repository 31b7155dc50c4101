/**
 * The static catalog tables (src/data/products.ts): the category table with
 * its first-match lookups, and the sample product list. Icons are the
 * lucide-react components named in the table; prices are in integer cents.
 */
module Catalog {
  import opened Wrappers

  datatype Icon = Code | Paintbrush | Music | Camera | Film | BookOpen | Gamepad | Briefcase | Palette | Headphones

  datatype CategoryEntry = CategoryEntry(id: string, name: string, icon: Icon, description: string)

  datatype Product = Product(id: string, name: string, priceCents: nat, category: string,
                             featured: bool, author: string)

  /** The members of the `ProductCategory` union. */
  const ProductCategories: seq<string> :=
    ["software", "graphics", "audio", "photos", "videos", "ebooks", "games", "business", "design", "music"]

  const Categories: seq<CategoryEntry> := [
    CategoryEntry("software", "Software", Code, "Development tools and applications"),
    CategoryEntry("graphics", "Graphics", Paintbrush, "Visual assets and design resources"),
    CategoryEntry("audio", "Audio", Music, "Sound effects and music tracks"),
    CategoryEntry("photos", "Photos", Camera, "High-quality stock photography"),
    CategoryEntry("videos", "Videos", Film, "Video footage and animations"),
    CategoryEntry("ebooks", "eBooks", BookOpen, "Digital books and guides"),
    CategoryEntry("games", "Games", Gamepad, "Game assets and templates"),
    CategoryEntry("business", "Business", Briefcase, "Business templates and tools"),
    CategoryEntry("design", "Design", Palette, "Design resources and templates"),
    CategoryEntry("music", "Music", Headphones, "Music production tools")
  ]

  const Products: seq<Product> := [
    Product("1", "Pro Photo Editor", 4999, "software", true, "TechCorp"),
    Product("2", "Beat Maker Studio", 7999, "audio", true, "AudioLabs"),
    Product("3", "Code Snippets Pack", 2999, "software", false, "DevTools Inc"),
    Product("4", "Minimalist Icon Pack", 1999, "graphics", true, "DesignStudio"),
    Product("5", "Ambient Sounds Collection", 1499, "audio", false, "SoundScape"),
    Product("6", "Nature Photography Bundle", 3999, "photos", false, "NatureShots"),
    Product("7", "Business Plan Templates", 2499, "business", false, "BizPro"),
    Product("8", "Indie Game Assets", 3499, "games", false, "GameArt")
  ]

  /** The position at which `categories.find(c => c.id === id)` stops: the first entry with that id, if any. */
  function FindIndex(table: seq<CategoryEntry>, id: string): (r: Option<nat>)
    ensures r.Some? ==> r.value < |table| && table[r.value].id == id
    ensures r.Some? ==> forall j :: 0 <= j < r.value ==> table[j].id != id
    ensures r.None? ==> forall j :: 0 <= j < |table| ==> table[j].id != id
  {
    if table == [] then None
    else if table[0].id == id then Some(0)
    else match FindIndex(table[1..], id)
      case Some(i) => Some(i + 1)
      case None => None
  }

  /** `getCategoryInfo(category)`: the first entry whose id matches, or nothing when none does. */
  function GetCategoryInfo(category: string): (r: Option<CategoryEntry>)
    ensures r.Some? ==> r.value in Categories && r.value.id == category
    ensures r.None? <==> forall j :: 0 <= j < |Categories| ==> Categories[j].id != category
    ensures r.Some? ==> exists i :: 0 <= i < |Categories| && Categories[i] == r.value
                                    && forall j :: 0 <= j < i ==> Categories[j].id != category
  {
    match FindIndex(Categories, category)
    case Some(i) => Some(Categories[i])
    case None => None
  }

  /** `getCategoryIcon(category)`: the matching entry's icon, else `Code`. */
  function GetCategoryIcon(category: string): (icon: Icon)
    ensures GetCategoryInfo(category).Some? ==> icon == GetCategoryInfo(category).value.icon
    ensures GetCategoryInfo(category).None? ==> icon == Code
  {
    match GetCategoryInfo(category)
    case Some(entry) => entry.icon
    case None => Code
  }

  /** The table lists exactly the union's members, in order. */
  lemma CategoryIdsAreTheUnion()
    ensures |Categories| == |ProductCategories|
    ensures forall i :: 0 <= i < |Categories| ==> Categories[i].id == ProductCategories[i]
  {
  }

  /** No two table entries share an id, so "first match" is "the match". */
  lemma CategoryIdsDistinct()
    ensures forall i, j :: 0 <= i < j < |Categories| ==> Categories[i].id != Categories[j].id
  {
  }

  /** Every `ProductCategory` has an entry: the lookup is defined and the icon is that entry's. */
  lemma EveryCategoryCovered(category: string)
    requires category in ProductCategories
    ensures GetCategoryInfo(category).Some?
    ensures GetCategoryInfo(category).value.id == category
    ensures GetCategoryIcon(category) == GetCategoryInfo(category).value.icon
  {
    CategoryIdsAreTheUnion();
    var i :| 0 <= i < |ProductCategories| && ProductCategories[i] == category;
    assert Categories[i].id == category;
  }

  /** Only the union's members have entries: anything else gets the default icon. */
  lemma OnlyUnionMembersCovered(category: string)
    requires category !in ProductCategories
    ensures GetCategoryInfo(category).None?
    ensures GetCategoryIcon(category) == Code
  {
    CategoryIdsAreTheUnion();
    forall j | 0 <= j < |Categories|
      ensures Categories[j].id != category
    {
      assert Categories[j].id == ProductCategories[j];
    }
  }

  /** The product ids are distinct. */
  lemma ProductIdsDistinct()
    ensures forall i, j :: 0 <= i < j < |Products| ==> Products[i].id != Products[j].id
  {
  }

  /** Each product's category is a union member, so it has a table entry. */
  lemma ProductCategoriesCovered()
    ensures forall i :: 0 <= i < |Products| ==> Products[i].category in ProductCategories
    ensures forall i :: 0 <= i < |Products| ==> GetCategoryInfo(Products[i].category).Some?
  {
    var at := [0, 2, 0, 1, 2, 3, 7, 6];  // where each product's category sits in the union
    forall i | 0 <= i < |Products|
      ensures Products[i].category in ProductCategories && GetCategoryInfo(Products[i].category).Some?
    {
      assert Products[i].category == ProductCategories[at[i]];
      EveryCategoryCovered(Products[i].category);
    }
  }
}
