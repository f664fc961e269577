/** The portfolio page: a category filter over a constant list of works, and a lightbox for one of them. */
module PortfolioPage {
  import opened Common

  datatype MediaKind = Image | Video

  datatype PortfolioItem = PortfolioItem(id: nat, kind: MediaKind, title: string, category: string,
                                         image: string, videoUrl: Option<string>, description: string)

  const Placeholder := "/api/placeholder/600/400"
  const DemoVideo := "https://www.youtube.com/embed/dQw4w9WgXcQ"

  const PortfolioItems: seq<PortfolioItem> := [
    PortfolioItem(1, Image, "BK Arena Branded Merchandise", "Branded Products", Placeholder, None,
                  "Complete merchandise line for Rwanda's premier sports venue"),
    PortfolioItem(2, Video, "Heineken Campaign Video", "Video Production", Placeholder, Some(DemoVideo),
                  "Creative campaign video for Heineken Rwanda launch"),
    PortfolioItem(3, Image, "RDB Corporate Identity", "Brand Design", Placeholder, None,
                  "Logo design and brand guidelines for Rwanda Development Board"),
    PortfolioItem(4, Image, "Marriott Hotel Amenities", "Branded Products", Placeholder, None,
                  "Luxury branded amenities for Marriott Hotel Kigali"),
    PortfolioItem(5, Video, "MTN Event Coverage", "Event Video", Placeholder, Some(DemoVideo),
                  "Professional event coverage and highlights reel"),
    PortfolioItem(6, Image, "Canal+ Promotional Items", "Branded Products", Placeholder, None,
                  "Custom promotional items for Canal+ subscription campaign"),
    PortfolioItem(7, Image, "RRA Annual Report Design", "Print Design", Placeholder, None,
                  "Professional annual report design for Rwanda Revenue Authority"),
    PortfolioItem(8, Video, "Product Photography Showcase", "Photography", Placeholder, Some(DemoVideo),
                  "Behind-the-scenes of our product photography process")
  ]

  const AllCategories := "All"

  const Categories: seq<string> :=
    [AllCategories, "Branded Products", "Video Production", "Brand Design", "Event Video", "Print Design", "Photography"]

  /**
   * `selected === 'All' ? items : items.filter(item => item.category === selected)`.
   * `'All'` gives the list unchanged; any other category gives exactly the items of that
   * category, each as often as in the list, in their original order.
   */
  function FilterByCategory(items: seq<PortfolioItem>, selected: string): (r: seq<PortfolioItem>)
    ensures selected == AllCategories ==> r == items
    ensures selected != AllCategories ==>
      && IsSubsequence(r, items)
      && (forall x :: x in r ==> x.category == selected)
      && (forall x :: multiset(r)[x] == if x.category == selected then multiset(items)[x] else 0)
  {
    if selected == AllCategories then items else Filter(items, (item: PortfolioItem) => item.category == selected)
  }

  /** An item is in the filtered list exactly when it is in the list and has the selected category. */
  lemma FilterMembership(items: seq<PortfolioItem>, selected: string, x: PortfolioItem)
    requires selected != AllCategories
    ensures x in FilterByCategory(items, selected) <==> x in items && x.category == selected
  {
  }

  /** The constant list: ids are distinct, every item's category is offered, and `'All'` is no item's category. */
  lemma PortfolioItemsWellFormed()
    ensures forall i, j :: 0 <= i < j < |PortfolioItems| ==> PortfolioItems[i].id != PortfolioItems[j].id
    ensures forall x :: x in PortfolioItems ==> x.category in Categories && x.category != AllCategories
    ensures AllCategories in Categories
  {
  }

  /** The `Portfolio` page's state. */
  class Portfolio {
    var selectedCategory: string
    var lightboxItem: Option<PortfolioItem>

    ghost predicate Valid()
      reads this
    {
      selectedCategory in Categories && (lightboxItem.Some? ==> lightboxItem.value in PortfolioItems)
    }

    constructor ()
      ensures Valid() && selectedCategory == AllCategories && lightboxItem.None?
    {
      selectedCategory := AllCategories;
      lightboxItem := None;
    }

    /** The items shown under the current selection. */
    function FilteredItems(): (r: seq<PortfolioItem>)
      reads this
      ensures forall x :: x in r ==> x in PortfolioItems
    {
      var r := FilterByCategory(PortfolioItems, selectedCategory);
      assert forall x :: x in r ==> multiset(PortfolioItems)[x] > 0;
      r
    }

    /** A click on a category button. */
    method SelectCategory(category: string)
      requires Valid() && category in Categories
      modifies this
      ensures Valid() && selectedCategory == category && lightboxItem == old(lightboxItem)
    {
      selectedCategory := category;
    }

    /** A click on one of the shown items: an item of the list whose category is the selected one, or any under `'All'`. */
    method OpenLightbox(item: PortfolioItem)
      requires Valid() && item in PortfolioItems
      requires selectedCategory == AllCategories || item.category == selectedCategory
      modifies this
      ensures Valid() && lightboxItem == Some(item) && selectedCategory == old(selectedCategory)
    {
      lightboxItem := Some(item);
    }

    method CloseLightbox()
      requires Valid()
      modifies this
      ensures Valid() && lightboxItem.None? && selectedCategory == old(selectedCategory)
    {
      lightboxItem := None;
    }
  }
}
