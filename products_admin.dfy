/**
 * The products admin screen: its modal form, the image check on create, the image-URL
 * resolution, and the in-memory create/edit of demo mode. In live mode the store's
 * answer is a parameter and the model reports what would be written.
 */
module Products {
  import opened Common
  import Catalog

  /** A product document; `image` is optional on the type. */
  datatype Product = Product(id: string, name: string, description: string, price: string,
                             image: Option<string>, icon: string)

  /** A file picked in the image input; only its identity matters here. */
  datatype File = File(name: string)

  /** The fields sent to the `products` collection in live mode. */
  datatype ProductDoc = ProductDoc(name: string, description: string, price: string, icon: string, image: string)

  /** A live-mode write: `updateDoc` on the edited product's id, or `addDoc`. */
  datatype StoreWrite = Update(id: string, doc: ProductDoc) | Add(doc: ProductDoc)

  /** How a submit ends: the "Image required" toast, success, or the catch branch. */
  datatype SubmitOutcome = ImageRequired | Saved | Failed

  /** The modal's form state, gathered for stating what a handler leaves unchanged. */
  datatype ProductForm = ProductForm(name: string, description: string, price: string, icon: string,
                                     imageFile: Option<File>, imagePreview: string,
                                     currentProduct: Option<Product>, isEditing: bool)

  const DefaultIcon := "Package"

  /** The form as `resetForm` (and the initial state) leaves it. */
  const EmptyForm := ProductForm("", "", "", DefaultIcon, None, "", None, false)

  function ProductId(p: Product): (id: string)
  {
    p.id
  }

  /** `currentProduct?.image || ''`: the edited product's image, or `''` when there is none. */
  function PreviousImage(current: Option<Product>): (r: string)
    ensures current.Some? && current.value.image.Some? ==> r == current.value.image.value
    ensures current.None? || current.value.image.None? ==> r == ""
  {
    if current.Some? && Truthy(current.value.image) then current.value.image.value else ""
  }

  /**
   * The URL a submit resolves: the previous image, replaced by the new file's URL when one is
   * attached (the local preview in demo mode, the uploaded file's URL otherwise).
   */
  function ResolveImageUrl(current: Option<Product>, file: Option<File>, preview: string,
                           demo: bool, uploadedUrl: string): (url: string)
    ensures url == PreviousImage(current) || url == preview || url == uploadedUrl
    ensures file.None? && current.Some? && current.value.image.Some? ==> url == current.value.image.value
    ensures file.None? && (current.None? || current.value.image.None?) ==> url == ""
    ensures file.Some? && demo ==> url == preview
    ensures file.Some? && !demo ==> url == uploadedUrl
  {
    if file.Some? then (if demo then preview else uploadedUrl) else PreviousImage(current)
  }

  /** The demo edit's replacement: `{...current, name, description, price, icon, image: url || current.image}`. */
  function EditedProduct(current: Product, name: string, description: string, price: string,
                         icon: string, url: string): (p: Product)
    ensures p == current.(name := name, description := description, price := price, icon := icon,
                          image := if url != "" then Some(url) else current.image)
  {
    Product(current.id, name, description, price, if url != "" then Some(url) else current.image, icon)
  }

  /** The demo create's new product, with id `demo-${now}`. */
  function NewDemoProduct(now: nat, name: string, description: string, price: string,
                          icon: string, url: string): (p: Product)
    ensures Catalog.DemoPrefix <= p.id && p.image == Some(url)
    ensures p.name == name && p.description == description && p.price == price && p.icon == icon
  {
    Product(Catalog.DemoId(now), name, description, price, Some(url), icon)
  }

  /** Editing without attaching a new file stores exactly the image the product had. */
  lemma EditWithoutFileKeepsImage(current: Product, name: string, description: string, price: string,
                                  icon: string, preview: string, demo: bool, uploadedUrl: string)
    ensures var p := EditedProduct(current, name, description, price, icon,
                                   ResolveImageUrl(Some(current), None, preview, demo, uploadedUrl));
            p.image == current.image && p.id == current.id
  {
  }

  /** In demo mode a newly attached file's stored image is the local preview URL, on create and on edit. */
  lemma DemoFileImageIsPreview(current: Option<Product>, file: File, preview: string, now: nat,
                               name: string, description: string, price: string, icon: string,
                               uploadedUrl: string)
    requires preview != ""
    ensures var url := ResolveImageUrl(current, Some(file), preview, true, uploadedUrl);
            NewDemoProduct(now, name, description, price, icon, url).image == Some(preview)
            && (current.Some? ==> EditedProduct(current.value, name, description, price, icon, url).image == Some(preview))
  {
  }

  /**
   * The demo edit of a list: same length; every product with the edited id becomes the edited
   * product, keeping that id; every other product is untouched.
   */
  lemma DemoEditTouchesOnlyMatch(list: seq<Product>, current: Product, name: string, description: string,
                                 price: string, icon: string, url: string)
    ensures var r := Catalog.ReplaceWhere(list, ProductId, current.id,
                                          EditedProduct(current, name, description, price, icon, url));
            |r| == |list|
            && (forall i :: 0 <= i < |list| ==> r[i].id == list[i].id)
            && (forall i :: 0 <= i < |list| && list[i].id != current.id ==> r[i] == list[i])
            && (forall i :: 0 <= i < |list| && list[i].id == current.id ==>
                  r[i].name == name && r[i].description == description && r[i].price == price && r[i].icon == icon)
  {
  }

  /** Two products created in demo mode at different clock readings never share an id. */
  lemma DemoProductIdsDiffer(t1: nat, t2: nat, name1: string, description1: string, price1: string, icon1: string,
                             url1: string, name2: string, description2: string, price2: string, icon2: string,
                             url2: string)
    requires t1 != t2
    ensures NewDemoProduct(t1, name1, description1, price1, icon1, url1).id
            != NewDemoProduct(t2, name2, description2, price2, icon2, url2).id
  {
    if Catalog.DemoId(t1) == Catalog.DemoId(t2) {
      Catalog.DemoIdInjective(t1, t2);
    }
  }

  /** No two products of the list share an id. */
  predicate DistinctIds(list: seq<Product>)
  {
    forall i, j :: 0 <= i < j < |list| ==> list[i].id != list[j].id
  }

  /** A demo create keeps the ids distinct when no product already carries the new `demo-` id. */
  lemma DemoCreateKeepsDistinctIds(list: seq<Product>, now: nat, name: string, description: string,
                                   price: string, icon: string, url: string)
    requires DistinctIds(list)
    requires forall i :: 0 <= i < |list| ==> list[i].id != Catalog.DemoId(now)
    ensures DistinctIds([NewDemoProduct(now, name, description, price, icon, url)] + list)
  {
  }

  /**
   * On a list with distinct ids, the demo edit keeps the ids distinct and changes at most
   * one product: of any two positions, one is untouched.
   */
  lemma DemoEditKeepsDistinctIds(list: seq<Product>, current: Product, name: string, description: string,
                                 price: string, icon: string, url: string)
    requires DistinctIds(list)
    ensures var r := Catalog.ReplaceWhere(list, ProductId, current.id,
                                          EditedProduct(current, name, description, price, icon, url));
            DistinctIds(r) && forall i, j :: 0 <= i < j < |list| ==> r[i] == list[i] || r[j] == list[j]
  {
  }

  /**
   * Two demo creates at the same clock reading give two products with the same id: the
   * `demo-${Date.now()}` id is unique only while clock readings differ.
   */
  lemma SameClockDemoCreatesCollide(list: seq<Product>, now: nat, name1: string, description1: string,
                                    price1: string, icon1: string, url1: string, name2: string,
                                    description2: string, price2: string, icon2: string, url2: string)
    ensures !DistinctIds([NewDemoProduct(now, name2, description2, price2, icon2, url2)]
                         + ([NewDemoProduct(now, name1, description1, price1, icon1, url1)] + list))
  {
    var r := [NewDemoProduct(now, name2, description2, price2, icon2, url2)]
             + ([NewDemoProduct(now, name1, description1, price1, icon1, url1)] + list);
    assert r[0].id == r[1].id;
  }

  /** The state of the `ProductsAdmin` component. */
  class ProductsAdmin {
    const demoMode: bool
    var products: seq<Product>
    var loading: bool
    var isModalOpen: bool
    var isEditing: bool
    var currentProduct: Option<Product>
    var imageFile: Option<File>
    var imagePreview: string
    var name: string
    var description: string
    var price: string
    var icon: string

    /** Editing exactly when a product is being edited; an attached file always has a preview URL. */
    ghost predicate Valid()
      reads this
    {
      (isEditing <==> currentProduct.Some?) && (imageFile.Some? ==> imagePreview != "")
    }

    ghost function Form(): ProductForm
      reads this
    {
      ProductForm(name, description, price, icon, imageFile, imagePreview, currentProduct, isEditing)
    }

    constructor (demoMode: bool)
      ensures Valid() && this.demoMode == demoMode
      ensures products == [] && loading && !isModalOpen && Form() == EmptyForm
    {
      this.demoMode := demoMode;
      products := [];
      loading := true;
      isModalOpen := false;
      isEditing := false;
      currentProduct := None;
      imageFile := None;
      imagePreview := "";
      name, description, price, icon := "", "", "", DefaultIcon;
    }

    /** The realtime listener delivers the whole collection. */
    method OnSnapshot(list: seq<Product>)
      requires Valid()
      modifies this
      ensures Valid() && products == list && !loading
      ensures isModalOpen == old(isModalOpen) && Form() == old(Form())
    {
      products := list;
      loading := false;
    }

    /** The listener's error callback only ends loading. */
    method OnSnapshotError()
      requires Valid()
      modifies this
      ensures Valid() && !loading
      ensures products == old(products) && isModalOpen == old(isModalOpen) && Form() == old(Form())
    {
      loading := false;
    }

    /**
     * The end of `fetchProducts`, the re-read started after a live save: the documents read
     * (`None` when `getDocs` rejects, which keeps the list) and, in either case, loading off.
     */
    method OnFetchSettled(read: Option<seq<Product>>)
      requires Valid()
      modifies this
      ensures Valid() && !loading
      ensures read.Some? ==> products == read.value
      ensures read.None? ==> products == old(products)
      ensures isModalOpen == old(isModalOpen) && Form() == old(Form())
    {
      if read.Some? {
        products := read.value;
      }
      loading := false;
    }

    method SetName(value: string)
      requires Valid()
      modifies this
      ensures Valid() && Form() == old(Form()).(name := value)
      ensures products == old(products) && loading == old(loading) && isModalOpen == old(isModalOpen)
    {
      name := value;
    }

    method SetDescription(value: string)
      requires Valid()
      modifies this
      ensures Valid() && Form() == old(Form()).(description := value)
      ensures products == old(products) && loading == old(loading) && isModalOpen == old(isModalOpen)
    {
      description := value;
    }

    method SetPrice(value: string)
      requires Valid()
      modifies this
      ensures Valid() && Form() == old(Form()).(price := value)
      ensures products == old(products) && loading == old(loading) && isModalOpen == old(isModalOpen)
    {
      price := value;
    }

    /**
     * The file input's change handler: the first picked file, if any, becomes the attached
     * file and `previewUrl` (the browser's object URL for it) the preview.
     */
    method HandleImageChange(files: seq<File>, previewUrl: string)
      requires Valid() && previewUrl != ""
      modifies this
      ensures Valid()
      ensures files == [] ==> Form() == old(Form())
      ensures files != [] ==> Form() == old(Form()).(imageFile := Some(files[0]), imagePreview := previewUrl)
      ensures products == old(products) && loading == old(loading) && isModalOpen == old(isModalOpen)
    {
      if files != [] {
        imageFile := Some(files[0]);
        imagePreview := previewUrl;
      }
    }

    /** The preview's remove button drops the file and the preview. */
    method ClearImage()
      requires Valid()
      modifies this
      ensures Valid()
      ensures Form() == old(Form()).(imageFile := None, imagePreview := "")
      ensures products == old(products) && loading == old(loading) && isModalOpen == old(isModalOpen)
    {
      imageFile := None;
      imagePreview := "";
    }

    method ResetForm()
      modifies this
      ensures Valid() && Form() == EmptyForm
      ensures products == old(products) && loading == old(loading) && isModalOpen == old(isModalOpen)
    {
      name, description, price, icon := "", "", "", DefaultIcon;
      imageFile := None;
      imagePreview := "";
      currentProduct := None;
      isEditing := false;
    }

    /**
     * Opens the modal. With a product the form is prefilled from it (icon `'Package'` when it
     * has none); the preview is replaced only when the product has an image, and the attached
     * file is kept. Without a product the form is reset.
     */
    method OpenModal(product: Option<Product>)
      requires Valid()
      modifies this
      ensures Valid() && isModalOpen
      ensures product.None? ==> Form() == EmptyForm
      ensures product.Some? ==>
        var p := product.value;
        Form() == ProductForm(p.name, p.description, p.price, Or(p.icon, DefaultIcon), old(imageFile),
                              if Truthy(p.image) then p.image.value else old(imagePreview), product, true)
      ensures products == old(products) && loading == old(loading)
    {
      if product.Some? {
        var p := product.value;
        isEditing := true;
        currentProduct := product;
        name := p.name;
        description := p.description;
        price := p.price;
        icon := Or(p.icon, DefaultIcon);
        if Truthy(p.image) {
          imagePreview := p.image.value;
        }
      } else {
        ResetForm();
      }
      isModalOpen := true;
    }

    method CloseModal()
      modifies this
      ensures Valid() && !isModalOpen && Form() == EmptyForm
      ensures products == old(products) && loading == old(loading)
    {
      isModalOpen := false;
      ResetForm();
    }

    /**
     * Submitting the form. The required inputs (name, description, price) are non-empty, as
     * the browser enforces before the handler runs. `now` is the clock reading used for a demo
     * id; `storeOk` says whether the live upload and write succeed, and `uploadedUrl` is the URL
     * the store gives an uploaded file.
     */
    method Submit(now: nat, storeOk: bool, uploadedUrl: string) returns (outcome: SubmitOutcome, written: Option<StoreWrite>)
      requires Valid() && name != "" && description != "" && price != ""
      modifies this
      ensures Valid()
      // a live save starts the re-read (`fetchProducts`), which shows the spinner until it settles
      ensures outcome == Saved && !demoMode ==> loading
      ensures !(outcome == Saved && !demoMode) ==> loading == old(loading)
      // adding a product without a file is rejected and changes nothing
      ensures outcome == ImageRequired <==> old(!isEditing && imageFile.None?)
      ensures outcome == ImageRequired ==>
        written.None? && products == old(products) && isModalOpen == old(isModalOpen) && Form() == old(Form())
      // a failure leaves everything, the open modal included, as it was
      ensures outcome == Failed <==> (old(isEditing || imageFile.Some?) && !demoMode && !storeOk)
      ensures outcome == Failed ==>
        written.None? && products == old(products) && isModalOpen == old(isModalOpen) && Form() == old(Form())
      // success ends by closing the modal, which resets the form
      ensures outcome == Saved ==> !isModalOpen && Form() == EmptyForm
      // demo edit: replace by id
      ensures outcome == Saved && demoMode && old(isEditing && currentProduct.Some?) ==>
        written.None? &&
        products == Catalog.ReplaceWhere(old(products), ProductId, old(currentProduct.value.id),
                      EditedProduct(old(currentProduct.value), old(name), old(description), old(price), old(icon),
                                    old(ResolveImageUrl(currentProduct, imageFile, imagePreview, true, uploadedUrl))))
      // demo create: prepend one product with a demo id and a non-empty image
      ensures outcome == Saved && demoMode && !old(isEditing && currentProduct.Some?) ==>
        written.None? &&
        products == [NewDemoProduct(now, old(name), old(description), old(price), old(icon), old(imagePreview))]
                    + old(products) &&
        Truthy(products[0].image)
      // a demo save keeps the ids distinct, provided a create's clock reading gives a fresh id
      ensures outcome == Saved && demoMode && old(DistinctIds(products))
              && (forall i :: 0 <= i < |old(products)| ==> old(products)[i].id != Catalog.DemoId(now)) ==>
        DistinctIds(products)
      // live mode: the write goes to the store; the local list waits for the re-read or the next snapshot
      ensures outcome == Saved && !demoMode ==>
        products == old(products) &&
        var doc := ProductDoc(old(name), old(description), old(price), old(icon),
                              old(ResolveImageUrl(currentProduct, imageFile, imagePreview, false, uploadedUrl)));
        written == if old(isEditing && currentProduct.Some?) then Some(Update(old(currentProduct.value.id), doc))
                   else Some(Add(doc))
    {
      if !isEditing && imageFile.None? {
        outcome, written := ImageRequired, None;
        return;
      }
      var imageUrl := ResolveImageUrl(currentProduct, imageFile, imagePreview, demoMode, uploadedUrl);
      if demoMode {
        if isEditing && currentProduct.Some? {
          var cp := currentProduct.value;
          if DistinctIds(products) {
            DemoEditKeepsDistinctIds(products, cp, name, description, price, icon, imageUrl);
          }
          products := Catalog.ReplaceWhere(products, ProductId, cp.id,
                                           EditedProduct(cp, name, description, price, icon, imageUrl));
        } else {
          if DistinctIds(products) && forall i :: 0 <= i < |products| ==> products[i].id != Catalog.DemoId(now) {
            DemoCreateKeepsDistinctIds(products, now, name, description, price, icon, imageUrl);
          }
          products := [NewDemoProduct(now, name, description, price, icon, imageUrl)] + products;
        }
        written := None;
      } else {
        if !storeOk {
          outcome, written := Failed, None;
          return;
        }
        var doc := ProductDoc(name, description, price, icon, imageUrl);
        written := if isEditing && currentProduct.Some? then Some(Update(currentProduct.value.id, doc))
                   else Some(Add(doc));
      }
      CloseModal();
      if !demoMode {
        loading := true;
      }
      outcome := Saved;
    }
  }

  /**
   * The add-then-edit walk-through in demo mode: add "Test Mug" with a file, then change its
   * price without a new file. One product remains, with a demo id, the new price and the
   * original image.
   */
  method DemoAddThenEdit(file: File, preview: string, t1: nat, t2: nat) returns (final: seq<Product>)
    requires preview != ""
    ensures |final| == 1
    ensures Catalog.DemoPrefix <= final[0].id
    ensures final[0].name == "Test Mug" && final[0].description == "x"
    ensures final[0].price == "$12" && final[0].image == Some(preview)
  {
    var admin := new ProductsAdmin(true);
    admin.OpenModal(None);
    admin.SetName("Test Mug");
    admin.SetDescription("x");
    admin.SetPrice("$10");
    admin.HandleImageChange([file], preview);
    var outcome, written := admin.Submit(t1, true, "");
    assert outcome == Saved;
    assert |admin.products| == 1 && admin.products[0].price == "$10";
    admin.OpenModal(Some(admin.products[0]));
    admin.SetPrice("$12");
    outcome, written := admin.Submit(t2, true, "");
    final := admin.products;
  }

  /**
   * A live edit without a new file, followed by the re-read: the save sends an update of the
   * product's id with its old image (`''` when it had none) and turns the spinner on; when
   * the re-read settles the list is what was read and the spinner is off.
   */
  method LiveEditThenReread(p: Product, read: seq<Product>)
    returns (sent: Option<StoreWrite>, loadingAfterSave: bool, final: seq<Product>, loadingAfterRead: bool)
    requires p.name != "" && p.description != "" && p.price != ""
    ensures sent == Some(Update(p.id, ProductDoc(p.name, p.description, p.price, Or(p.icon, DefaultIcon),
                                                 PreviousImage(Some(p)))))
    ensures loadingAfterSave && !loadingAfterRead && final == read
  {
    var admin := new ProductsAdmin(false);
    admin.OnSnapshot([p]);
    admin.OpenModal(Some(p));
    var outcome;
    outcome, sent := admin.Submit(0, true, "");
    loadingAfterSave := admin.loading;
    admin.OnFetchSettled(Some(read));
    final, loadingAfterRead := admin.products, admin.loading;
  }
}
