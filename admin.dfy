/**
 * The admin panel (src/pages/AdminPanel.tsx): the access gate, the product
 * form with its image-field list, and the submit that derives the sale and
 * stock flags and dispatches an add or an update to the catalog store.
 */
module Admin {
  import opened Common
  import opened Text
  import opened ProductModel
  import Catalog
  import Seed

  // ---------------------------------------------------------------- gate

  /** The signed-in user as far as the panel looks at it: an e-mail address, possibly missing. */
  datatype User = User(email: Option<string>)

  const AdminEmail: string := "admin@jewelia.com"

  /** The page renders only for a signed-in user whose e-mail is exactly the admin address. */
  predicate AccessGranted(user: Option<User>)
  {
    user.Some? && user.value.email == Some(AdminEmail)
  }

  /**
   * Nobody signed out, nobody without an e-mail and nobody with another
   * address gets in; the comparison is exact, so a differently capitalised
   * address is refused too.
   */
  lemma AccessOnlyForAdmin(user: Option<User>)
    ensures AccessGranted(user) <==> user == Some(User(Some(AdminEmail)))
    ensures !AccessGranted(None) && !AccessGranted(Some(User(None)))
    ensures !AccessGranted(Some(User(Some("Admin@jewelia.com"))))
  {
    assert "Admin@jewelia.com"[0] != AdminEmail[0];
  }

  // ---------------------------------------------------------------- form

  /** `formData`: the editable fields; the original price is a plain number, 0 meaning none. */
  datatype FormData = FormData(
    name: string,
    price: int,
    originalPrice: int,
    image: string,
    category: string,
    style: string,
    collection: Collection,
    description: string,
    stockCount: int,
    images: seq<string>)

  function FirstOrEmpty(options: seq<string>): string
  {
    if |options| > 0 then options[0] else ""
  }

  /** The blank form: category and style preselect the first option, or '' when there is none. */
  function DefaultForm(ps: seq<Product>): FormData
  {
    FormData("", 0, 0, "", FirstOrEmpty(Catalog.CategoriesOf(ps)), FirstOrEmpty(Catalog.StylesOf(ps)),
             Women, "", 0, [""])
  }

  /** The blank form preselects the catalog's first product's category and style, and has one empty image field. */
  lemma DefaultFormChoices(ps: seq<Product>)
    ensures |ps| > 0 ==> DefaultForm(ps).category == ps[0].category && DefaultForm(ps).style == ps[0].style
    ensures |ps| == 0 ==> DefaultForm(ps).category == "" && DefaultForm(ps).style == ""
    ensures DefaultForm(ps).images == [""]
  {
    Catalog.OptionListsExact(ps);
  }

  /** `handleEdit`: the product's fields, a missing original price as 0 and no images as one empty field. */
  function FormOf(p: Product): FormData
  {
    FormData(p.name, p.price, if p.originalPrice.Some? then p.originalPrice.value else 0, p.image,
             p.category, p.style, p.collection, p.description, p.stockCount,
             if |p.images| > 0 then p.images else [""])
  }

  /** The rule for the sale flag on submit. */
  predicate OnSaleRule(originalPrice: int, price: int)
  {
    originalPrice > 0 && originalPrice > price
  }

  /** The image URLs that survive submit: those whose trimmed text is not empty, in order. */
  function NonBlankImages(images: seq<string>): seq<string>
  {
    Filter(images, (img: string) => Trim(img) != "")
  }

  /** `productData` in `handleSubmit`. */
  function SubmittedDraft(f: FormData): NewProduct
  {
    NewProduct(f.name, f.price, Some(f.originalPrice), f.image, f.category, f.style, f.collection,
               f.description, Some(OnSaleRule(f.originalPrice, f.price)), Some(false),
               NonBlankImages(f.images), f.stockCount > 0, f.stockCount)
  }

  /**
   * The submitted product is on sale iff its original price is positive and
   * above the price, is never a best-seller, is in stock iff its stock count
   * is positive, and carries the form's other fields unchanged.
   */
  lemma SubmittedFlags(f: FormData)
    ensures IsOnSaleDraft(SubmittedDraft(f)) <==> f.originalPrice > 0 && f.originalPrice > f.price
    ensures SubmittedDraft(f).isBestSeller == Some(false)
    ensures SubmittedDraft(f).inStock <==> f.stockCount > 0
    ensures var d := SubmittedDraft(f);
            d.name == f.name && d.price == f.price && d.originalPrice == Some(f.originalPrice) &&
            d.image == f.image && d.category == f.category && d.style == f.style &&
            d.collection == f.collection && d.description == f.description && d.stockCount == f.stockCount
  {
  }

  predicate IsOnSaleDraft(d: NewProduct)
  {
    d.isOnSale == Some(true)
  }

  /**
   * Submitted images are the form's image fields without the white-space-only
   * ones: none is blank, each other field is kept as often as it occurs, and
   * the order is that of the form.
   */
  lemma SubmittedImages(f: FormData, url: string, more: seq<string>)
    ensures forall img :: img in SubmittedDraft(f).images ==> img in f.images && !IsBlank(img)
    ensures multiset(SubmittedDraft(f).images)[url] == if IsBlank(url) then 0 else multiset(f.images)[url]
    ensures NonBlankImages(f.images + more) == NonBlankImages(f.images) + NonBlankImages(more)
  {
    var keep := (img: string) => Trim(img) != "";
    forall img | img in SubmittedDraft(f).images ensures img in f.images && !IsBlank(img) {
      TrimEmptyIffBlank(img);
    }
    TrimEmptyIffBlank(url);
    FilterCount(f.images, keep, url);
    FilterAppend(f.images, more, keep);
  }

  /** A product the form can reproduce: the flags the form derives and non-blank images. */
  predicate FormConsistent(p: Product)
  {
    && p.originalPrice.Some?
    && p.isOnSale == Some(OnSaleRule(p.originalPrice.value, p.price))
    && p.isBestSeller == Some(false)
    && p.inStock == (p.stockCount > 0)
    && forall i :: 0 <= i < |p.images| ==> !IsBlank(p.images[i])
  }

  /**
   * Editing a product and saving the form untouched merges back exactly the
   * product when its stored flags are the ones the form derives.
   */
  lemma {:induction false} EditSaveRoundTrip(p: Product)
    requires FormConsistent(p)
    ensures Merge(p, PatchOf(SubmittedDraft(FormOf(p)))) == p
  {
    var keep := (img: string) => Trim(img) != "";
    if |p.images| > 0 {
      forall i | 0 <= i < |p.images| ensures keep(p.images[i]) {
        TrimEmptyIffBlank(p.images[i]);
      }
      FilterKeepsAll(p.images, keep);
    } else {
      assert Filter([""], keep) == [];
    }
  }

  /**
   * The seed catalog is not form-consistent: its product 6 is flagged on
   * sale without an original price, and saving it unchanged from the form
   * turns the flag off and sets the original price to 0.
   */
  lemma SeedSaleFlagNotDerivable()
    ensures Seed.Products[5].id == 6 && Seed.Products[5].isOnSale == Some(true)
    ensures SubmittedDraft(FormOf(Seed.Products[5])).isOnSale == Some(false)
    ensures SubmittedDraft(FormOf(Seed.Products[5])).originalPrice == Some(0)
    ensures !FormConsistent(Seed.Products[5])
  {
  }

  // --------------------------------------------------------- image fields

  /** `filter((_, i) => i !== index)`: drops position index, if there is one. */
  function RemoveAt(s: seq<string>, index: int): (r: seq<string>)
    ensures 0 <= index < |s| ==> |r| == |s| - 1
    ensures 0 <= index < |s| ==> forall j :: 0 <= j < index ==> r[j] == s[j]
    ensures 0 <= index < |s| ==> forall j :: index <= j < |r| ==> r[j] == s[j + 1]
    ensures !(0 <= index < |s|) ==> r == s
  {
    if 0 <= index < |s| then s[..index] + s[index + 1..] else s
  }

  /** The product form's state. */
  class AdminPanel {
    var form: FormData
    var editing: Option<Product>
    var showForm: bool

    /** The image-field list is never empty. */
    predicate Valid()
      reads this
    {
      |form.images| >= 1
    }

    /** First render: the blank form for the catalog then shown, not editing, hidden. */
    constructor(ps: seq<Product>)
      ensures form == DefaultForm(ps) && editing == None && !showForm
      ensures Valid()
    {
      form := DefaultForm(ps);
      editing := None;
      showForm := false;
    }

    /** The "Add Product" button. */
    method ShowAddForm()
      modifies this
      ensures showForm && form == old(form) && editing == old(editing)
    {
      showForm := true;
    }

    /** `resetForm`, with the option lists of the catalog as currently rendered. */
    method ResetForm(ps: seq<Product>)
      modifies this
      ensures form == DefaultForm(ps) && editing == None && !showForm
      ensures Valid()
    {
      form := DefaultForm(ps);
      editing := None;
      showForm := false;
    }

    /** `handleEdit`. */
    method HandleEdit(p: Product)
      modifies this
      ensures editing == Some(p) && form == FormOf(p) && showForm
      ensures Valid()
    {
      editing := Some(p);
      form := FormOf(p);
      showForm := true;
    }

    /**
     * `handleSubmit`: the derived draft updates the product being edited
     * (by its id, so ids stay distinct) or is added as a new product; then
     * the form is reset with the option lists of the catalog it was shown
     * with.
     */
    method HandleSubmit(store: Catalog.CatalogStore)
      modifies this, store
      ensures old(editing).Some? ==> store.products == Catalog.Updated(
                old(store.products), old(editing).value.id, PatchOf(SubmittedDraft(old(form))))
      ensures old(editing).None? ==> store.products == Catalog.Added(
                old(store.products), SubmittedDraft(old(form)))
      ensures old(store.Valid()) ==> store.Valid()
      ensures form == DefaultForm(old(store.products)) && editing == None && !showForm
      ensures Valid()
    {
      var shown := store.products;
      var productData := SubmittedDraft(form);
      if editing.Some? {
        store.UpdateProduct(editing.value.id, PatchOf(productData));
      } else {
        store.AddProduct(productData);
      }
      ResetForm(shown);
    }

    /** `handleDelete`: deletes only when the confirmation dialog was accepted. */
    method HandleDelete(store: Catalog.CatalogStore, id: int, confirmed: bool)
      modifies store
      ensures confirmed ==> store.products == Catalog.Without(old(store.products), id)
      ensures !confirmed ==> store.products == old(store.products)
      ensures old(store.Valid()) ==> store.Valid()
    {
      if confirmed {
        store.DeleteProduct(id);
      }
    }

    /** `addImageField`: one more, empty, field at the end. */
    method AddImageField()
      requires Valid()
      modifies this
      ensures Valid()
      ensures form == old(form).(images := old(form.images) + [""])
      ensures editing == old(editing) && showForm == old(showForm)
    {
      form := form.(images := form.images + [""]);
    }

    /**
     * `updateImageField`: copies the list, writes the one entry, and also
     * sets the primary image when the entry is the first.
     */
    method UpdateImageField(index: nat, value: string)
      requires Valid()
      requires index < |form.images|
      modifies this
      ensures Valid()
      ensures |form.images| == |old(form.images)| && form.images[index] == value
      ensures forall j :: 0 <= j < |form.images| && j != index ==> form.images[j] == old(form.images[j])
      ensures form.image == if index == 0 then value else old(form.image)
      ensures form == old(form).(images := form.images, image := form.image)
      ensures editing == old(editing) && showForm == old(showForm)
    {
      var images := form.images;
      var newImages := new string[|images|];
      var k := 0;
      while k < |images|
        modifies newImages
        invariant 0 <= k <= |images|
        invariant forall j :: 0 <= j < k ==> newImages[j] == images[j]
      {
        newImages[k] := images[k];
        k := k + 1;
      }
      newImages[index] := value;
      form := form.(images := newImages[..], image := if index == 0 then value else form.image);
    }

    /** `removeImageField`: drops the entry only while more than one field exists. */
    method RemoveImageField(index: int)
      requires Valid()
      modifies this
      ensures Valid()
      ensures |old(form.images)| > 1 ==> form == old(form).(images := RemoveAt(old(form.images), index))
      ensures |old(form.images)| <= 1 ==> form == old(form)
      ensures editing == old(editing) && showForm == old(showForm)
    {
      if |form.images| > 1 {
        form := form.(images := RemoveAt(form.images, index));
      }
    }
  }
}
