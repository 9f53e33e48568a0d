/** The UI store: four fields (search open, search query, active filter
    category, product shown in the modal), each overwritten by its own
    setter. */
module UiStore {
  import opened Types

  /** A snapshot of the four fields. */
  datatype UiState = UiState(
    isSearchOpen: bool,
    searchQuery: string,
    activeCategory: Option<string>,
    modalProduct: Option<Product>)

  /** Search closed, empty query, no active category, no modal product. */
  const InitialUiState := UiState(false, "", None, None)

  class Ui {
    var isSearchOpen: bool
    var searchQuery: string
    var activeCategory: Option<string>
    var modalProduct: Option<Product>

    function State(): UiState
      reads this
    {
      UiState(isSearchOpen, searchQuery, activeCategory, modalProduct)
    }

    constructor ()
      ensures State() == InitialUiState
    {
      isSearchOpen, searchQuery, activeCategory, modalProduct := false, "", None, None;
    }

    /** `setSearchOpen`: only `isSearchOpen` changes. */
    method SetSearchOpen(open: bool)
      modifies this
      ensures State() == old(State()).(isSearchOpen := open)
    {
      isSearchOpen := open;
    }

    /** `setSearchQuery`: only `searchQuery` changes. */
    method SetSearchQuery(query: string)
      modifies this
      ensures State() == old(State()).(searchQuery := query)
    {
      searchQuery := query;
    }

    /** `setActiveCategory`: only `activeCategory` changes. */
    method SetActiveCategory(categoryId: Option<string>)
      modifies this
      ensures State() == old(State()).(activeCategory := categoryId)
    {
      activeCategory := categoryId;
    }

    /** `openProductModal`: only `modalProduct` changes, to the product. */
    method OpenProductModal(product: Product)
      modifies this
      ensures State() == old(State()).(modalProduct := Some(product))
    {
      modalProduct := Some(product);
    }

    /** `closeProductModal`: only `modalProduct` changes, to none, whatever
        it was before. */
    method CloseProductModal()
      modifies this
      ensures State() == old(State()).(modalProduct := None)
    {
      modalProduct := None;
    }
  }

  /** A client of the store: every setter applied twice with the same
      argument leaves the state it leaves when applied once, and opening then
      closing the modal ends with no modal product. Returns the final
      state. */
  method UiStoreHarness(product: Product, query: string, categoryId: Option<string>) returns (final: UiState)
    ensures final == UiState(true, query, categoryId, None)
  {
    var ui := new Ui();
    assert ui.State() == InitialUiState;

    ui.SetSearchOpen(true);
    var once := ui.State();
    ui.SetSearchOpen(true);
    assert ui.State() == once;

    ui.SetSearchQuery(query);
    once := ui.State();
    ui.SetSearchQuery(query);
    assert ui.State() == once;

    ui.SetActiveCategory(categoryId);
    once := ui.State();
    ui.SetActiveCategory(categoryId);
    assert ui.State() == once;

    ui.OpenProductModal(product);
    once := ui.State();
    ui.OpenProductModal(product);
    assert ui.State() == once && ui.modalProduct == Some(product);

    ui.CloseProductModal();
    once := ui.State();
    ui.CloseProductModal();
    assert ui.State() == once && ui.modalProduct == None;
    final := ui.State();
  }
}
