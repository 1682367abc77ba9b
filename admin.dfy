/** The admin dashboard (AdminDashboard.tsx): quick search and the add/edit form. */
module Admin {
  import opened Wrappers
  import opened Seqs
  import opened Text
  import opened Types
  import opened Catalog

  const DefaultSpecs: Specs := Specs(Some(""), Some(""), Some(""), Some(""), Some(Common))

  /**
   * The empty form (AdminDashboard.tsx:21-39, 88-105). The form is a partial
   * product: it has no id, no `isFeatured`, no original price, no features
   * and no reviews until confirmation fills the first two in.
   */
  const DefaultForm: Product := Product("", "", "", Figures, 0, None, "", "", Some(""), Some([]), Some(""), None, 0, None, Some(DefaultSpecs), None)

  /** `filteredProducts` (AdminDashboard.tsx:133-136). */
  function QuickSearch(ps: seq<Product>, term: string): (r: seq<Product>)
    ensures IsSubseq(r, ps)
    ensures forall i :: 0 <= i < |r| ==> r[i] in ps && MatchesSearch(r[i], term)
    ensures forall i :: 0 <= i < |ps| && MatchesSearch(ps[i], term) ==> ps[i] in r
  {
    FilterIsSubseq(ps, SearchFor(term));
    Filter(ps, SearchFor(term))
  }

  /** An empty search term lists the whole catalogue. */
  lemma EmptyTermListsAll(ps: seq<Product>)
    ensures QuickSearch(ps, "") == ps
  {
    forall i | 0 <= i < |ps| ensures SearchFor("")(ps[i]) {
      EmptyQueryMatchesAll(ps[i]);
    }
    FilterKeepsAll(ps, SearchFor(""));
  }

  /** `formData.images || []`. */
  function ImagesOf(form: Product): seq<string> {
    form.images.GetOr([])
  }

  /** `handleAddImageUrl`: one empty slot at the end. */
  function AddSlot(images: seq<string>): (r: seq<string>)
    ensures |r| == |images| + 1 && r[..|images|] == images && r[|images|] == ""
  {
    images + [""]
  }

  /** `handleUpdateImageUrl`: only the entry at `index` changes. */
  function SetImage(images: seq<string>, index: int, url: string): (r: seq<string>)
    requires 0 <= index < |images|
    ensures |r| == |images| && r[index] == url
    ensures forall j :: 0 <= j < |images| && j != index ==> r[j] == images[j]
  {
    images[index := url]
  }

  /** `handleRemoveImageUrl`: the entry at `index` goes; an index outside the list removes nothing. */
  function RemoveAt(images: seq<string>, index: int): (r: seq<string>)
    ensures 0 <= index < |images| ==> |r| == |images| - 1
    ensures 0 <= index < |images| ==> forall j :: 0 <= j < |r| ==> r[j] == images[if j < index then j else j + 1]
    ensures !(0 <= index < |images|) ==> r == images
  {
    if 0 <= index < |images| then images[..index] + images[index + 1..] else images
  }

  /** Removing a slot just added restores the list. */
  lemma RemoveUndoesAddSlot(images: seq<string>)
    ensures RemoveAt(AddSlot(images), |images|) == images
  {
  }

  /** Writing a slot and writing back its old value restores the list. */
  lemma SetImageUndo(images: seq<string>, index: int, url: string)
    requires 0 <= index < |images|
    ensures SetImage(SetImage(images, index, url), index, images[index]) == images
  {
  }

  /** `handleEdit`'s form (AdminDashboard.tsx:110-122): missing specs become `''`, a missing rarity `Common`, missing images `[]`. */
  function EditFormFor(p: Product): (f: Product)
    ensures f.id == p.id && f.name == p.name && f.series == p.series && f.category == p.category
    ensures f.price == p.price && f.stock == p.stock && f.reviews == p.reviews && f.isFeatured == p.isFeatured
    ensures f.images == Some(p.images.GetOr([]))
    ensures f.specs.Some? && f.specs.value.rarity.Some?
    ensures p.specs.None? ==> f.specs == Some(DefaultSpecs)
    ensures p.specs.Some? && p.specs.value.rarity.Some? ==> f.specs.value.rarity == p.specs.value.rarity
    ensures f.(specs := p.specs, images := p.images) == p
    ensures p.specs.Some? ==>
      var s := p.specs.value;
      f.specs.value == Specs(Some(s.material.GetOr("")), Some(s.dimensions.GetOr("")), Some(s.weight.GetOr("")),
                             Some(s.origin.GetOr("")), Some(s.rarity.GetOr(Common)))
  {
    var s := if p.specs.Some? then p.specs.value else Specs(None, None, None, None, None);
    p.(specs := Some(Specs(
         Some(s.material.GetOr("")),
         Some(s.dimensions.GetOr("")),
         Some(s.weight.GetOr("")),
         Some(s.origin.GetOr("")),
         Some(s.rarity.GetOr(Common)))),
       images := Some(p.images.GetOr([])))
  }

  /** A product whose specs and images are all present is put in the form unchanged. */
  lemma EditFormKeepsComplete(p: Product)
    requires p.images.Some? && p.specs.Some?
    requires var s := p.specs.value; s.material.Some? && s.dimensions.Some? && s.weight.Some? && s.origin.Some? && s.rarity.Some?
    ensures EditFormFor(p) == p
  {
  }

  /** `products.find(p => p.id === editingId)?.isFeatured ?? true`. */
  function KeptFeatured(ps: seq<Product>, id: string): (b: bool)
    ensures HasProduct(ps, id) ==> b == FindProduct(ps, id).value.isFeatured.GetOr(true)
    ensures HasProduct(ps, id) && FindProduct(ps, id).value.isFeatured == Some(false) ==> !b
    ensures !HasProduct(ps, id) ==> b
  {
    match FindProduct(ps, id)
    case Some(p) => p.isFeatured.GetOr(true)
    case None => true
  }

  datatype AdminAction = AddAction(product: Product) | UpdateAction(product: Product)

  const AdminIdPrefix: string := "ZK-ADMIN-"

  /**
   * What `confirmSubmit` hands to the root (AdminDashboard.tsx:64-81). The
   * edit branch is taken when `editingId` is truthy, i.e. set and non-empty;
   * `now` stands for `Date.now()`.
   */
  function Confirmed(form: Product, editingId: Option<string>, ps: seq<Product>, now: int): (a: AdminAction)
    ensures editingId.Some? && editingId.value != "" ==>
      a.UpdateAction? && a.product.id == editingId.value && a.product.isFeatured == Some(KeptFeatured(ps, editingId.value))
    ensures !(editingId.Some? && editingId.value != "") ==>
      a.AddAction? && |a.product.id| > |AdminIdPrefix| && a.product.id[..|AdminIdPrefix|] == AdminIdPrefix && a.product.isFeatured == Some(true)
    ensures a.product.(id := form.id, isFeatured := form.isFeatured) == form
  {
    if editingId.Some? && editingId.value != "" then
      UpdateAction(form.(id := editingId.value, isFeatured := Some(KeptFeatured(ps, editingId.value))))
    else
      var id := AdminIdPrefix + IntToString(now);
      assert id[..|AdminIdPrefix|] == AdminIdPrefix;
      AddAction(form.(id := id, isFeatured := Some(true)))
  }

  /**
   * Editing a catalogued product and confirming without touching the form
   * updates that product in place: same id, same featured flag (`true` when
   * it had none), everything else as `handleEdit` put it in the form.
   */
  lemma EditConfirmRoundTrip(ps: seq<Product>, i: int, now: int)
    requires UniqueProductIds(ps) && 0 <= i < |ps| && ps[i].id != ""
    ensures Confirmed(EditFormFor(ps[i]), Some(ps[i].id), ps, now)
         == UpdateAction(EditFormFor(ps[i]).(isFeatured := Some(ps[i].isFeatured.GetOr(true))))
  {
    FindProductUnique(ps, i);
  }

  /** A product whose id is the empty string cannot be edited: confirming adds a new product instead. */
  lemma EmptyIdEditAdds(ps: seq<Product>, p: Product, now: int)
    requires p.id == ""
    ensures Confirmed(EditFormFor(p), Some(p.id), ps, now).AddAction?
  {
  }

  class AdminDashboard {
    var formData: Product
    var editingId: Option<string>
    var isFormOpen: bool
    var isConfirming: bool
    var searchTerm: string

    /** The page as it mounts (AdminDashboard.tsx:16-39). */
    constructor ()
      ensures formData == DefaultForm && editingId == None && !isFormOpen && !isConfirming && searchTerm == ""
    {
      formData, editingId, isFormOpen, isConfirming, searchTerm := DefaultForm, None, false, false, "";
    }

    method SetSearchTerm(t: string)
      modifies this
      ensures searchTerm == t
      ensures formData == old(formData) && editingId == old(editingId)
      ensures isFormOpen == old(isFormOpen) && isConfirming == old(isConfirming)
    {
      searchTerm := t;
    }

    /** The listed products. */
    method Listed(ps: seq<Product>) returns (r: seq<Product>)
      ensures IsSubseq(r, ps)
      ensures forall i :: 0 <= i < |r| ==> MatchesSearch(r[i], searchTerm)
      ensures forall i :: 0 <= i < |ps| && MatchesSearch(ps[i], searchTerm) ==> ps[i] in r
    {
      r := QuickSearch(ps, searchTerm);
    }

    method AddImageSlot()
      modifies this
      ensures formData == old(formData).(images := Some(AddSlot(ImagesOf(old(formData)))))
      ensures editingId == old(editingId) && isFormOpen == old(isFormOpen) && isConfirming == old(isConfirming)
      ensures searchTerm == old(searchTerm)
    {
      formData := formData.(images := Some(AddSlot(ImagesOf(formData))));
    }

    /** Typing into slot `index`; the form only offers the slots it lists. */
    method UpdateImage(index: int, url: string)
      requires 0 <= index < |ImagesOf(formData)|
      modifies this
      ensures formData == old(formData).(images := Some(SetImage(ImagesOf(old(formData)), index, url)))
      ensures editingId == old(editingId) && isFormOpen == old(isFormOpen) && isConfirming == old(isConfirming)
      ensures searchTerm == old(searchTerm)
    {
      formData := formData.(images := Some(SetImage(ImagesOf(formData), index, url)));
    }

    method RemoveImage(index: int)
      modifies this
      ensures formData == old(formData).(images := Some(RemoveAt(ImagesOf(old(formData)), index)))
      ensures editingId == old(editingId) && isFormOpen == old(isFormOpen) && isConfirming == old(isConfirming)
      ensures searchTerm == old(searchTerm)
    {
      formData := formData.(images := Some(RemoveAt(ImagesOf(formData), index)));
    }

    /** `handleSubmit`: the confirmation overlay opens; nothing is saved yet. */
    method Submit()
      modifies this
      ensures isConfirming
      ensures formData == old(formData) && editingId == old(editingId) && isFormOpen == old(isFormOpen)
      ensures searchTerm == old(searchTerm)
    {
      isConfirming := true;
    }

    /** The overlay's abort button and backdrop (AdminDashboard.tsx:483, 516). */
    method AbortConfirm()
      modifies this
      ensures !isConfirming
      ensures formData == old(formData) && editingId == old(editingId) && isFormOpen == old(isFormOpen)
      ensures searchTerm == old(searchTerm)
    {
      isConfirming := false;
    }

    /** `resetForm` (AdminDashboard.tsx:87-108). */
    method ResetForm()
      modifies this
      ensures formData == DefaultForm && editingId == None
      ensures isFormOpen == old(isFormOpen) && isConfirming == old(isConfirming) && searchTerm == old(searchTerm)
    {
      formData := DefaultForm;
      editingId := None;
    }

    /** `confirmSubmit`: returns the action for the root and closes the form, reset. */
    method ConfirmSubmit(ps: seq<Product>, now: int) returns (a: AdminAction)
      modifies this
      ensures a == Confirmed(old(formData), old(editingId), ps, now)
      ensures formData == DefaultForm && editingId == None && !isFormOpen && !isConfirming
      ensures searchTerm == old(searchTerm)
    {
      a := Confirmed(formData, editingId, ps, now);
      ResetForm();
      isFormOpen := false;
      isConfirming := false;
    }

    /** `handleEdit`. */
    method Edit(p: Product)
      modifies this
      ensures formData == EditFormFor(p) && editingId == Some(p.id) && isFormOpen
      ensures isConfirming == old(isConfirming) && searchTerm == old(searchTerm)
    {
      formData := EditFormFor(p);
      editingId := Some(p.id);
      isFormOpen := true;
    }

    /** `handleInitiateAdd`: an empty form, opened. */
    method InitiateAdd()
      modifies this
      ensures formData == DefaultForm && editingId == None && isFormOpen
      ensures isConfirming == old(isConfirming) && searchTerm == old(searchTerm)
    {
      ResetForm();
      isFormOpen := true;
    }

    /** The form's close and cancel buttons (AdminDashboard.tsx:191, 398). */
    method CloseForm()
      modifies this
      ensures formData == DefaultForm && editingId == None && !isFormOpen
      ensures isConfirming == old(isConfirming) && searchTerm == old(searchTerm)
    {
      isFormOpen := false;
      ResetForm();
    }
  }
}
