/** src/components/SelectionBox.js: the filter controls. The component keeps the three parts of
    the filter specification as state; each handler overwrites one part and then calls the page's
    `filterStores` once with the whole specification. */
module SelectionBox {
  import opened StoreRecord
  import opened HomePage

  /** The toggle buttons of the two category groups. */
  datatype CategoryButton = Grocery | FarmersMarket | SmallBox | Convenience | OtherCategory

  /** The `value` each button hands to `handleCategoryChange`. */
  function ButtonValue(b: CategoryButton): (v: string)
    ensures v != ""
  {
    match b
    case Grocery => "Grocery"
    case FarmersMarket => "Farmers Market"
    case SmallBox => "Small Box"
    case Convenience => "Convenience"
    case OtherCategory => "Other"
  }

  /** Different buttons hand over different values. */
  lemma ButtonValuesDistinct(b: CategoryButton, b': CategoryButton)
    requires b != b'
    ensures ButtonValue(b) != ButtonValue(b')
  {
  }

  /** What an exclusive toggle group reports: the clicked button's value, or null when the
      already-selected button is clicked again. */
  function CategoryValue(choice: Option<CategoryButton>): Option<string> {
    match choice
    case Some(b) => Some(ButtonValue(b))
    case None => None
  }

  /** The specification the component starts with: category '', both boxes unchecked. */
  function InitialSpec(): FilterSpec {
    FilterSpec(Some(""), false, false)
  }

  /** The starting specification restricts nothing: it selects every loaded store, which is
      the list the page shows right after its fetch. */
  lemma {:induction false} InitialSpecSelectsAll(stores: seq<Store>)
    ensures !CategoryRequested(InitialSpec())
    ensures Matching(stores, InitialSpec()) == stores
  {
    NoConstraintKeepsAll(stores, InitialSpec());
  }

  /** Choosing a button always narrows the list to that exact category. */
  lemma {:induction false} ButtonSelectsItsCategory(stores: seq<Store>, b: CategoryButton, freshProduce: bool, snap: bool)
    ensures forall s :: s in Matching(stores, FilterSpec(Some(ButtonValue(b)), freshProduce, snap)) ==>
              s.category == ButtonValue(b)
  {
    MatchingIsFilter(stores, FilterSpec(Some(ButtonValue(b)), freshProduce, snap));
  }

  class SelectionBoxState {
    var category: Option<string>
    var freshProduce: bool
    var snap: bool

    /** The specification the state stands for. */
    function Spec(): FilterSpec
      reads this
    {
      FilterSpec(category, freshProduce, snap)
    }

    constructor ()
      ensures Spec() == InitialSpec()
    {
      category, freshProduce, snap := Some(""), false, false;
    }

    /** `handleCategoryChange`: sets the category, keeps both flags, and calls `filterStores`
        once with the specification the state now stands for. */
    method HandleCategoryChange(choice: Option<CategoryButton>, page: HomePageState) returns (issued: FilterSpec)
      modifies this, page`filteredStores
      ensures category == CategoryValue(choice)
      ensures freshProduce == old(freshProduce) && snap == old(snap)
      ensures issued == Spec()
      ensures page.filteredStores == Matching(page.stores, issued) && page.Valid()
    {
      category := CategoryValue(choice);
      issued := FilterSpec(CategoryValue(choice), freshProduce, snap);
      page.FilterStores(issued);
    }

    /** `handleFreshProduceChange`: sets the fresh-produce flag to the box's new checked state. */
    method HandleFreshProduceChange(checked: bool, page: HomePageState) returns (issued: FilterSpec)
      modifies this, page`filteredStores
      ensures freshProduce == checked
      ensures category == old(category) && snap == old(snap)
      ensures issued == Spec()
      ensures page.filteredStores == Matching(page.stores, issued) && page.Valid()
    {
      freshProduce := checked;
      issued := FilterSpec(category, checked, snap);
      page.FilterStores(issued);
    }

    /** `handleSnapChange`: sets the SNAP flag to the box's new checked state. */
    method HandleSnapChange(checked: bool, page: HomePageState) returns (issued: FilterSpec)
      modifies this, page`filteredStores
      ensures snap == checked
      ensures category == old(category) && freshProduce == old(freshProduce)
      ensures issued == Spec()
      ensures page.filteredStores == Matching(page.stores, issued) && page.Valid()
    {
      snap := checked;
      issued := FilterSpec(category, freshProduce, checked);
      page.FilterStores(issued);
    }
  }
}
