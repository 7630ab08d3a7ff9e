/** The add-product form
    (components/shared/VendorSide/stock/addProductModal/addProductModal.tsx):
    the draft product, the three required-field checks in order, and the
    reset after a successful add or a cancel. The form hands the product to
    its caller (`onAddProduct`) by returning it; closing the form
    (`onClose`) is the caller's `StockTable.CloseAddModal`. */
module AddProductModal {
  import opened Wrappers
  import opened JsStrings

  /** The draft the form holds and passes on, untrimmed. */
  datatype NewProduct = NewProduct(name: string, image: string, category: string, stock: string, price: string)

  const EmptyForm: NewProduct := NewProduct("", "", "Meat", "", "")

  datatype FormError = MissingName | MissingStock | MissingPrice

  /** The text `validationError` is set to. */
  function ErrorMessage(e: FormError): string {
    match e
    case MissingName => "Please enter a product name"
    case MissingStock => "Please enter stock quantity"
    case MissingPrice => "Please enter product price"
  }

  /** `handleAddProduct`'s checks, in order: a field is missing when it is
      empty after `trim()`. */
  function Validate(p: NewProduct): (r: Option<FormError>)
    ensures r == Some(MissingName) <==> IsBlank(p.name)
    ensures r == Some(MissingStock) <==> !IsBlank(p.name) && IsBlank(p.stock)
    ensures r == Some(MissingPrice) <==> !IsBlank(p.name) && !IsBlank(p.stock) && IsBlank(p.price)
    ensures r == None <==> !IsBlank(p.name) && !IsBlank(p.stock) && !IsBlank(p.price)
  {
    if IsBlank(p.name) then Some(MissingName)
    else if IsBlank(p.stock) then Some(MissingStock)
    else if IsBlank(p.price) then Some(MissingPrice)
    else None
  }

  /** An accepted product has a character other than whitespace in each of
      its name, stock and price; the empty form is never accepted. */
  lemma AcceptedFieldsHaveText(p: NewProduct)
    requires Validate(p) == None
    ensures exists i :: 0 <= i < |p.name| && !IsWhitespace(p.name[i])
    ensures exists i :: 0 <= i < |p.stock| && !IsWhitespace(p.stock[i])
    ensures exists i :: 0 <= i < |p.price| && !IsWhitespace(p.price[i])
  {
    BlankIffAllWhitespace(p.name);
    BlankIffAllWhitespace(p.stock);
    BlankIffAllWhitespace(p.price);
  }

  lemma EmptyFormRejected()
    ensures Validate(EmptyForm) == Some(MissingName)
  {
    BlankIffAllWhitespace("");
  }

  /** The inputs whose `onChange` copies the draft with one field replaced. */
  datatype FormField = Name | Category | Stock | Price

  function SetField(p: NewProduct, field: FormField, value: string): (r: NewProduct)
    ensures r.image == p.image
    ensures field == Name ==> r == p.(name := value)
    ensures field == Category ==> r == p.(category := value)
    ensures field == Stock ==> r == p.(stock := value)
    ensures field == Price ==> r == p.(price := value)
  {
    match field
    case Name => p.(name := value)
    case Category => p.(category := value)
    case Stock => p.(stock := value)
    case Price => p.(price := value)
  }

  class AddProductForm {
    var newProduct: NewProduct
    var imagePreview: string
    var validationError: string

    constructor ()
      ensures newProduct == EmptyForm && imagePreview == "" && validationError == ""
    {
      newProduct := EmptyForm;
      imagePreview := "";
      validationError := "";
    }

    /** The name, category, stock and price inputs. */
    method HandleFieldChange(field: FormField, value: string)
      modifies this
      ensures newProduct == SetField(old(newProduct), field, value)
      ensures imagePreview == old(imagePreview) && validationError == old(validationError)
    {
      newProduct := SetField(newProduct, field, value);
    }

    /** The `onloadend` of `handleImageChange`, given the data URL the reader
        produced. */
    method HandleImageLoaded(dataUrl: string)
      modifies this
      ensures imagePreview == dataUrl && newProduct == old(newProduct).(image := dataUrl)
      ensures validationError == old(validationError)
    {
      imagePreview := dataUrl;
      newProduct := newProduct.(image := dataUrl);
    }

    /** `handleAddProduct`: on a failed check only the error message changes;
        otherwise the draft is handed over as typed and the form is reset. */
    method HandleAddProduct() returns (added: Option<NewProduct>)
      modifies this
      ensures added.Some? <==> Validate(old(newProduct)).None?
      ensures Validate(old(newProduct)).Some? ==>
                validationError == ErrorMessage(Validate(old(newProduct)).value) &&
                newProduct == old(newProduct) && imagePreview == old(imagePreview)
      ensures Validate(old(newProduct)).None? ==>
                added == Some(old(newProduct)) &&
                newProduct == EmptyForm && imagePreview == "" && validationError == ""
    {
      if IsBlank(newProduct.name) {
        validationError := "Please enter a product name";
        return None;
      }
      if IsBlank(newProduct.stock) {
        validationError := "Please enter stock quantity";
        return None;
      }
      if IsBlank(newProduct.price) {
        validationError := "Please enter product price";
        return None;
      }
      added := Some(newProduct);
      newProduct := EmptyForm;
      imagePreview := "";
      validationError := "";
    }

    /** `handleCancel` up to `onClose()`: the same reset as after an add. */
    method HandleCancel()
      modifies this
      ensures newProduct == EmptyForm && imagePreview == "" && validationError == ""
    {
      newProduct := EmptyForm;
      imagePreview := "";
      validationError := "";
    }
  }
}
