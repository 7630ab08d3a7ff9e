/** The vendor's stock table (components/shared/VendorSide/stock/stock.tsx):
    the product list with delete-with-confirmation, add (from the add-product
    form), and inline edit of one row at a time. A new product's id is the
    list length plus one, which is unique only as long as nothing has been
    deleted. */
module Stock {
  import opened Wrappers
  import Seqs
  import AddProductModal

  datatype Product = Product(id: int, name: string, image: string, category: string, stock: string, price: string)

  const ChickenBreast := Product(1, "Chicken Breast", "/imageAssets/meat.png", "Meat", "50 kg", "\U{20B1}180/kg")
  const PorkBelly := Product(2, "Pork Belly", "/imageAssets/meat.png", "Meat", "30 kg", "\U{20B1}250/kg")
  const GroundBeef := Product(3, "Ground Beef", "/imageAssets/meat.png", "Meat", "25 kg", "\U{20B1}280/kg")
  const FreshTomatoes := Product(4, "Fresh Tomatoes", "/imageAssets/meat.png", "Fresh Produce", "40 kg", "\U{20B1}50/kg")
  const RedOnions := Product(5, "Red Onions", "/imageAssets/meat.png", "Fresh Produce", "35 kg", "\U{20B1}80/kg")
  const Potatoes := Product(6, "Potatoes", "/imageAssets/meat.png", "Fresh Produce", "60 kg", "\U{20B1}45/kg")
  const PotatoChips := Product(7, "Potato Chips", "/imageAssets/meat.png", "Chips", "100 pcs", "\U{20B1}25/pc")
  const CornChips := Product(8, "Corn Chips", "/imageAssets/meat.png", "Chips", "80 pcs", "\U{20B1}30/pc")
  const FrozenFishFillet := Product(9, "Frozen Fish Fillet", "/imageAssets/meat.png", "Frozen Goods", "45 kg", "\U{20B1}200/kg")
  const FrozenMixedVegetables := Product(10, "Frozen Mixed Vegetables", "/imageAssets/meat.png", "Frozen Goods", "50 packs", "\U{20B1}120/pack")
  const TShirt := Product(11, "T-Shirt", "/imageAssets/meat.png", "Clothing", "30 pcs", "\U{20B1}150/pc")
  const Jeans := Product(12, "Jeans", "/imageAssets/meat.png", "Clothing", "20 pcs", "\U{20B1}450/pc")

  const InitialProducts: seq<Product> := [
    ChickenBreast, PorkBelly, GroundBeef, FreshTomatoes,
    RedOnions, Potatoes, PotatoChips, CornChips,
    FrozenFishFillet, FrozenMixedVegetables, TShirt, Jeans
  ]

  // ---------------------------------------------------------------------
  // List operations
  // ---------------------------------------------------------------------

  function ProductId(p: Product): int {
    p.id
  }

  /** `products.filter((p) => p.id !== id)` */
  function RemoveProduct(products: seq<Product>, id: int): (r: seq<Product>)
    ensures |r| <= |products|
    ensures forall i :: 0 <= i < |r| ==> r[i].id != id && r[i] in products
    ensures forall i :: 0 <= i < |products| && products[i].id != id ==> products[i] in r
  {
    Seqs.RemoveKey(products, ProductId, id)
  }

  /** `products.map((p) => (p.id === edited.id ? edited : p))` */
  function ReplaceProduct(products: seq<Product>, edited: Product): (r: seq<Product>)
    ensures |r| == |products|
    ensures forall i :: 0 <= i < |r| ==> r[i].id == products[i].id
    ensures forall i :: 0 <= i < |r| && products[i].id == edited.id ==> r[i] == edited
    ensures forall i :: 0 <= i < |r| && products[i].id != edited.id ==> r[i] == products[i]
  {
    seq(|products|, i requires 0 <= i < |products| =>
      if products[i].id == edited.id then edited else products[i])
  }

  /** The product `handleAddProduct` builds from the form: the next id,
      and the price with the peso sign in front. */
  function NewProductRow(products: seq<Product>, np: AddProductModal.NewProduct): (p: Product)
    ensures p.id == |products| + 1
    ensures p.price == "\U{20B1}" + np.price
    ensures p.name == np.name && p.image == np.image && p.category == np.category && p.stock == np.stock
  {
    Product(|products| + 1, np.name, np.image, np.category, np.stock, "\U{20B1}" + np.price)
  }

  // ---------------------------------------------------------------------
  // Ids
  // ---------------------------------------------------------------------

  predicate UniqueIds(products: seq<Product>) {
    forall i, j :: 0 <= i < j < |products| ==> products[i].id != products[j].id
  }

  /** Every id is at most the list length: true of the initial table and kept
      by every add, so that until something is deleted the next id is new. */
  predicate IdsWithinLength(products: seq<Product>) {
    forall i :: 0 <= i < |products| ==> products[i].id <= |products|
  }

  /** A table numbered 1..n has unique ids, none above its length. */
  lemma NumberedIds(products: seq<Product>)
    requires forall i :: 0 <= i < |products| ==> products[i].id == i + 1
    ensures UniqueIds(products) && IdsWithinLength(products)
  {
  }

  lemma InitialIds()
    ensures UniqueIds(InitialProducts) && IdsWithinLength(InitialProducts)
    ensures forall i :: 0 <= i < |InitialProducts| ==> InitialProducts[i].id == i + 1
  {
    var ps := InitialProducts;
    assert ps[0].id == 1 && ps[1].id == 2 && ps[2].id == 3 && ps[3].id == 4;
    assert ps[4].id == 5 && ps[5].id == 6 && ps[6].id == 7 && ps[7].id == 8;
    assert ps[8].id == 9 && ps[9].id == 10 && ps[10].id == 11 && ps[11].id == 12;
    NumberedIds(ps);
  }

  /** Without a delete an add keeps ids unique. */
  lemma AddKeepsIdsUnique(products: seq<Product>, np: AddProductModal.NewProduct)
    requires UniqueIds(products) && IdsWithinLength(products)
    ensures var after := products + [NewProductRow(products, np)];
            UniqueIds(after) && IdsWithinLength(after)
  {
  }

  /** After deleting any product but the last from a table numbered 1..n, the
      next added product gets the id of the product that was last. */
  lemma NextIdCollidesAfterDelete(products: seq<Product>, k: int)
    requires forall i :: 0 <= i < |products| ==> products[i].id == i + 1
    requires 1 <= k < |products|
    ensures var rest := RemoveProduct(products, k);
            |rest| == |products| - 1 && rest[|rest| - 1] == products[|products| - 1] &&
            rest[|rest| - 1].id == |rest| + 1
  {
    var before := products[..k - 1];
    var after := products[k..];
    var removed := [products[k - 1]];
    assert products == (before + removed) + after;
    Seqs.RemoveMissingKey(before, ProductId, k);
    Seqs.RemoveMissingKey(after, ProductId, k);
    assert RemoveProduct(removed, k) == [] by {
      assert removed[0].id == k;
    }
    Seqs.RemoveKeyAppend(before + removed, after, ProductId, k);
    Seqs.RemoveKeyAppend(before, removed, ProductId, k);
    assert RemoveProduct(products, k) == before + after;
  }

  /** Concretely: delete "Ground Beef" (id 3) from the initial table and add
      a product; it gets id 12, the id "Jeans" still has. */
  lemma InitialTableCollision(np: AddProductModal.NewProduct)
    ensures var rest := RemoveProduct(InitialProducts, 3);
            var after := rest + [NewProductRow(rest, np)];
            after[|after| - 1].id == 12 && after[|after| - 2].name == "Jeans" &&
            after[|after| - 2].id == 12 && !UniqueIds(after)
  {
    NextIdCollidesAfterDelete(InitialProducts, 3);
  }

  // ---------------------------------------------------------------------
  // The table
  // ---------------------------------------------------------------------

  /** The inline edit inputs. */
  datatype EditField = Name | Category | Stock | Price

  function SetEditField(p: Product, field: EditField, value: string): (r: Product)
    ensures r.id == p.id && r.image == p.image
    ensures field == Name ==> r == p.(name := value)
    ensures field == Category ==> r == p.(category := value)
    ensures field == Stock ==> r == p.(stock := value)
    ensures field == Price ==> r == p.(price := value)
  {
    match field
    case Name => p.(name := value)
    case Category => p.(category := value)
    case Stock => p.(stock := value)
    case Price => p.(price := value)
  }

  class StockTable {
    var products: seq<Product>
    var showDeleteModal: bool
    var showAddModal: bool
    var productToDelete: Option<Product>
    var editingId: Option<int>
    var editedProduct: Option<Product>

    /** A row is in edit mode exactly when there is a draft, and the draft
        carries that row's id. */
    ghost predicate Valid()
      reads this
    {
      (editingId.Some? <==> editedProduct.Some?) &&
      (editedProduct.Some? ==> editingId == Some(editedProduct.value.id))
    }

    constructor ()
      ensures Valid()
      ensures products == InitialProducts && !showDeleteModal && !showAddModal
      ensures productToDelete == None && editingId == None && editedProduct == None
    {
      products := InitialProducts;
      showDeleteModal := false;
      showAddModal := false;
      productToDelete := None;
      editingId := None;
      editedProduct := None;
    }

    /** `handleDeleteClick` */
    method HandleDeleteClick(product: Product)
      requires Valid()
      modifies this
      ensures Valid()
      ensures productToDelete == Some(product) && showDeleteModal
      ensures products == old(products) && showAddModal == old(showAddModal)
      ensures editingId == old(editingId) && editedProduct == old(editedProduct)
    {
      productToDelete := Some(product);
      showDeleteModal := true;
    }

    /** `confirmDelete`: with a pending product, every product with its id is
        removed and the confirmation closes; without one nothing happens. */
    method ConfirmDelete()
      requires Valid()
      modifies this
      ensures Valid()
      ensures old(productToDelete).None? ==>
                products == old(products) && showDeleteModal == old(showDeleteModal) && productToDelete == None
      ensures old(productToDelete).Some? ==>
                products == RemoveProduct(old(products), old(productToDelete).value.id) &&
                !showDeleteModal && productToDelete == None
      ensures showAddModal == old(showAddModal)
      ensures editingId == old(editingId) && editedProduct == old(editedProduct)
    {
      if productToDelete.Some? {
        products := RemoveProduct(products, productToDelete.value.id);
        showDeleteModal := false;
        productToDelete := None;
      }
    }

    /** `cancelDelete` */
    method CancelDelete()
      requires Valid()
      modifies this
      ensures Valid()
      ensures !showDeleteModal && productToDelete == None
      ensures products == old(products) && showAddModal == old(showAddModal)
      ensures editingId == old(editingId) && editedProduct == old(editedProduct)
    {
      showDeleteModal := false;
      productToDelete := None;
    }

    /** The Add Product button. */
    method OpenAddModal()
      requires Valid()
      modifies this
      ensures Valid()
      ensures showAddModal
      ensures products == old(products) && showDeleteModal == old(showDeleteModal)
      ensures productToDelete == old(productToDelete)
      ensures editingId == old(editingId) && editedProduct == old(editedProduct)
    {
      showAddModal := true;
    }

    /** The form's `onClose`. */
    method CloseAddModal()
      requires Valid()
      modifies this
      ensures Valid()
      ensures !showAddModal
      ensures products == old(products) && showDeleteModal == old(showDeleteModal)
      ensures productToDelete == old(productToDelete)
      ensures editingId == old(editingId) && editedProduct == old(editedProduct)
    {
      showAddModal := false;
    }

    /** `handleAddProduct`, the form's `onAddProduct`: one product is
        appended after the unchanged others and the form closes. */
    method HandleAddProduct(np: AddProductModal.NewProduct)
      requires Valid()
      modifies this
      ensures Valid()
      ensures products == old(products) + [NewProductRow(old(products), np)]
      ensures !showAddModal
      ensures showDeleteModal == old(showDeleteModal) && productToDelete == old(productToDelete)
      ensures editingId == old(editingId) && editedProduct == old(editedProduct)
    {
      var product := Product(|products| + 1, np.name, np.image, np.category, np.stock, "\U{20B1}" + np.price);
      products := products + [product];
      showAddModal := false;
    }

    /** `handleEditClick`: the row's id and a copy of the row become the
        draft. */
    method HandleEditClick(product: Product)
      requires Valid()
      modifies this
      ensures Valid()
      ensures editingId == Some(product.id) && editedProduct == Some(product)
      ensures products == old(products) && showAddModal == old(showAddModal)
      ensures showDeleteModal == old(showDeleteModal) && productToDelete == old(productToDelete)
    {
      editingId := Some(product.id);
      editedProduct := Some(product);
    }

    /** An inline input of the row being edited. */
    method HandleEditFieldChange(field: EditField, value: string)
      requires Valid() && editedProduct.Some?
      modifies this
      ensures Valid()
      ensures editedProduct == Some(SetEditField(old(editedProduct).value, field, value))
      ensures editingId == old(editingId)
      ensures products == old(products) && showAddModal == old(showAddModal)
      ensures showDeleteModal == old(showDeleteModal) && productToDelete == old(productToDelete)
    {
      editedProduct := Some(SetEditField(editedProduct.value, field, value));
    }

    /** `handleSaveEdit`: with a draft, every product with the draft's id
        becomes the draft and edit mode ends; without one nothing happens. */
    method HandleSaveEdit()
      requires Valid()
      modifies this
      ensures Valid()
      ensures old(editedProduct).None? ==> products == old(products) && editingId == old(editingId)
      ensures old(editedProduct).Some? ==>
                products == ReplaceProduct(old(products), old(editedProduct).value)
      ensures editingId == None && editedProduct == None
      ensures showAddModal == old(showAddModal)
      ensures showDeleteModal == old(showDeleteModal) && productToDelete == old(productToDelete)
    {
      if editedProduct.Some? {
        products := ReplaceProduct(products, editedProduct.value);
        editingId := None;
        editedProduct := None;
      }
    }

    /** `handleCancelEdit` */
    method HandleCancelEdit()
      requires Valid()
      modifies this
      ensures Valid()
      ensures editingId == None && editedProduct == None
      ensures products == old(products) && showAddModal == old(showAddModal)
      ensures showDeleteModal == old(showDeleteModal) && productToDelete == old(productToDelete)
    {
      editingId := None;
      editedProduct := None;
    }
  }
}
