/** The product-editing form: the product loaded into it, the image list (new files and
    the URLs of images the product already has) and the `FormData` body it sends. */
module ProductEdit {
  import opened Common
  import opened FormData

  /** An element of the image list: a `File` the user picked, or the URL of an image the
      product already has. */
  datatype ImageItem = NewFile(file: File) | Existing(url: string)

  /** A selection as a load puts it into the form: `{ value, label }` built from the
      fetched id and name, either of which may be `undefined` (`None`). */
  datatype Choice = Choice(value: Option<string>, caption: Option<string>)

  /** The form's values. The form has no defaults, so before a product is loaded every
      field is `undefined` (`None`). */
  datatype EditForm = EditForm(
    name: Option<string>, price: Option<string>, stockQuantity: Option<string>,
    categoryId: Option<Choice>, brandId: Option<Choice>,
    description: Option<string>, moreDescription: Option<string>,
    colors: Option<seq<string>>)

  const EmptyForm: EditForm := EditForm(None, None, None, None, None, None, None, None)

  /** The JSON body the product request returns. The response status is never looked
      at, so the body may lack any field (`None`, read as `undefined`). */
  datatype ProductData = ProductData(
    name: Option<string>, price: Option<string>, stockQuantity: Option<string>,
    categoryId: Option<string>, categoryName: Option<string>,
    brandId: Option<string>, brandName: Option<string>,
    description: Option<string>, moreDescription: Option<string>,
    colors: Option<seq<string>>, images: Option<seq<string>>)

  /** A body with none of the product's fields, such as the `{ message }` of an error
      response. */
  const NoProductFields: ProductData :=
    ProductData(None, None, None, None, None, None, None, None, None, None, None)

  /** `x || []` on a possibly missing array (an empty array is truthy, so it is kept). */
  function OrEmpty<T>(o: Option<seq<T>>): (r: seq<T>)
    ensures o.Some? ==> r == o.value
    ensures o.None? ==> r == []
  {
    if o.Some? then o.value else []
  }

  /** The values `reset` puts into the form when a body is loaded: each text field as
      the body has it (possibly `undefined`), both selections present whatever the body
      holds, and the colors or `[]`. */
  function LoadedForm(data: ProductData): (f: EditForm)
    ensures f.categoryId == Some(Choice(data.categoryId, data.categoryName))
    ensures f.brandId == Some(Choice(data.brandId, data.brandName))
    ensures f.colors == Some(OrEmpty(data.colors))
    ensures f.name == data.name && f.price == data.price && f.stockQuantity == data.stockQuantity
    ensures f.description == data.description && f.moreDescription == data.moreDescription
  {
    EditForm(data.name, data.price, data.stockQuantity,
             Some(Choice(data.categoryId, data.categoryName)),
             Some(Choice(data.brandId, data.brandName)),
             data.description, data.moreDescription,
             Some(OrEmpty(data.colors)))
  }

  function ExistingImageKey(index: nat): string
  {
    IndexedKey("existingImages", index, "")
  }

  /** The entry image `index` of the list gives: a file is uploaded under `images`, an
      existing image's URL goes under `existingImages[index]`. */
  function ImageEntry(index: nat, item: ImageItem): Entry
  {
    match item
    case NewFile(f) => Entry("images", Upload(f))
    case Existing(u) => Entry(ExistingImageKey(index), Text(u))
  }

  /** `images.forEach((file, index) => ...)`: one entry per image, in list order. */
  function ImageEntries(images: seq<ImageItem>): (r: seq<Entry>)
    ensures |r| == |images|
    decreases |images|
  {
    if images == [] then []
    else
      var n := |images| - 1;
      ImageEntries(images[..n]) + [ImageEntry(n, images[n])]
  }

  /** Image `i` gives entry `i` of the image part. */
  lemma {:induction false} ImageEntryAt(images: seq<ImageItem>, i: nat)
    requires i < |images|
    ensures ImageEntries(images)[i] == ImageEntry(i, images[i])
    decreases |images|
  {
    var n := |images| - 1;
    if i < n {
      ImageEntryAt(images[..n], i);
    }
  }

  /** Image `i` is entry `i` of the image part: a file as an upload, an existing image
      under its own position in the whole list, so positions of existing images may skip
      numbers where new files sit. */
  lemma ImageEntriesAt(images: seq<ImageItem>)
    ensures |ImageEntries(images)| == |images|
    ensures forall i :: 0 <= i < |images| && images[i].NewFile? ==>
              ImageEntries(images)[i] == Entry("images", Upload(images[i].file))
    ensures forall i :: 0 <= i < |images| && images[i].Existing? ==>
              ImageEntries(images)[i] == Entry(ExistingImageKey(i), Text(images[i].url))
  {
    forall i | 0 <= i < |images| ensures ImageEntries(images)[i] == ImageEntry(i, images[i]) {
      ImageEntryAt(images, i);
    }
  }

  /** Every existing image is sent under a key of its own. */
  lemma ExistingImageKeysDistinct(images: seq<ImageItem>, i: nat, j: nat)
    requires i < j < |images| && images[i].Existing? && images[j].Existing?
    ensures |ImageEntries(images)| == |images|
    ensures ImageEntries(images)[i].key != ImageEntries(images)[j].key
  {
    ImageEntriesAt(images);
    if ExistingImageKey(i) == ExistingImageKey(j) {
      IndexedKeyInjective("existingImages", i, j, "");
    }
  }

  /** `if (data.key) formData.append(key, data.key.value)`: a selection object is always
      truthy, and a missing `value` is sent as `undefined`. */
  function OptionalSelection(key: string, o: Option<Choice>): seq<Entry>
  {
    if o.Some? then [Entry(key, Text(TextOf(o.value.value)))] else []
  }

  /** The six fields `onSubmit` always appends, in its order. */
  function FixedEntries(id: string, form: EditForm): seq<Entry>
  {
    [ Entry("id", Text(id)),
      Entry("name", Text(TextOf(form.name))),
      Entry("price", Text(TextOf(form.price))),
      Entry("stockQuantity", Text(TextOf(form.stockQuantity))),
      Entry("description", Text(TextOf(form.description))),
      Entry("moreDescription", Text(TextOf(form.moreDescription))) ]
  }

  /** The entries before the lists: the fixed fields, then each selection that exists. */
  function HeadEntries(id: string, form: EditForm): seq<Entry>
  {
    FixedEntries(id, form)
      + OptionalSelection("categoryId", form.categoryId)
      + OptionalSelection("brandId", form.brandId)
  }

  /** The entries of the colors loop, none when the product has no colors array. */
  function ColorPart(form: EditForm): seq<Entry>
  {
    if form.colors.Some? then ColorEntries(form.colors.value) else []
  }

  /** The body `onSubmit` builds: the fixed fields, each selection that exists, the
      colors if any, and the images. */
  function SubmitEntries(id: string, form: EditForm, images: seq<ImageItem>): seq<Entry>
  {
    HeadEntries(id, form) + ColorPart(form) + ImageEntries(images)
  }

  /** The count of selections that exist. */
  function Selections(form: EditForm): nat
  {
    (if form.categoryId.Some? then 1 else 0) + (if form.brandId.Some? then 1 else 0)
  }

  /** The six fixed fields come first; the category entry follows exactly when one is
      selected, and the brand entry closes the head when one is selected. */
  lemma HeadLayout(id: string, form: EditForm)
    ensures var h, k := HeadEntries(id, form), Selections(form);
            && |h| == 6 + k
            && h[..6] == FixedEntries(id, form)
            && (form.categoryId.Some? ==> h[6] == Entry("categoryId", Text(TextOf(form.categoryId.value.value))))
            && (form.brandId.Some? ==> h[5 + k] == Entry("brandId", Text(TextOf(form.brandId.value.value))))
  {
    var f := FixedEntries(id, form);
    var c := OptionalSelection("categoryId", form.categoryId);
    var h := HeadEntries(id, form);
    assert h == f + c + OptionalSelection("brandId", form.brandId);
    assert (f + c)[..6] == f;
  }

  /** Color `i` is entry `i` of the colors part, which is empty when colors are absent. */
  lemma ColorPartAt(form: EditForm)
    ensures |ColorPart(form)| == |OrEmpty(form.colors)|
    ensures forall i :: 0 <= i < |ColorPart(form)| ==>
              ColorPart(form)[i] == Entry(ColorKey(i), Text(OrEmpty(form.colors)[i]))
  {
    ColorEntriesAt(OrEmpty(form.colors));
  }

  /** Proof helper: where the three parts of `a + b + c` sit. */
  lemma ConcatParts<T>(a: seq<T>, b: seq<T>, c: seq<T>)
    ensures (a + b + c)[..|a|] == a
    ensures forall i :: 0 <= i < |a| ==> (a + b + c)[i] == a[i]
    ensures forall i :: 0 <= i < |b| ==> (a + b + c)[|a| + i] == b[i]
    ensures (a + b + c)[|a| + |b|..] == c
  {
    assert a + b + c == a + (b + c);
  }

  /** The body opens with the head: the six fixed fields, then the category entry
      exactly when one is selected, then the brand entry exactly when one is selected. */
  lemma SubmitEntriesHead(id: string, form: EditForm, images: seq<ImageItem>)
    ensures |SubmitEntries(id, form, images)| == 6 + Selections(form) + |OrEmpty(form.colors)| + |images|
    ensures SubmitEntries(id, form, images)[..6 + Selections(form)] == HeadEntries(id, form)
    ensures SubmitEntries(id, form, images)[..6] == FixedEntries(id, form)
    ensures form.categoryId.Some? ==>
              SubmitEntries(id, form, images)[6] == Entry("categoryId", Text(TextOf(form.categoryId.value.value)))
    ensures form.brandId.Some? ==>
              SubmitEntries(id, form, images)[5 + Selections(form)] == Entry("brandId", Text(TextOf(form.brandId.value.value)))
  {
    var head, ce, ie := HeadEntries(id, form), ColorPart(form), ImageEntries(images);
    HeadLayout(id, form);
    ColorPartAt(form);
    ConcatParts(head, ce, ie);
    var r := SubmitEntries(id, form, images);
    assert r == head + ce + ie;
    assert r[..6] == r[..|head|][..6];
    if form.categoryId.Some? {
      assert r[6] == head[6];
    }
    if form.brandId.Some? {
      assert r[5 + Selections(form)] == head[5 + Selections(form)];
    }
  }

  /** Color `i` follows the head at entry `6 + selections + i`. */
  lemma SubmitEntriesColor(id: string, form: EditForm, images: seq<ImageItem>, i: nat)
    requires i < |OrEmpty(form.colors)|
    ensures 6 + Selections(form) + i < |SubmitEntries(id, form, images)|
    ensures SubmitEntries(id, form, images)[6 + Selections(form) + i] == Entry(ColorKey(i), Text(OrEmpty(form.colors)[i]))
  {
    var head, ce, ie := HeadEntries(id, form), ColorPart(form), ImageEntries(images);
    HeadLayout(id, form);
    assert ce == ColorEntries(OrEmpty(form.colors));
    ColorEntryAt(OrEmpty(form.colors), i);
    var r := SubmitEntries(id, form, images);
    assert r == head + (ce + ie);
    assert r[|head| + i] == (ce + ie)[i] == ce[i];
  }

  /** The image entries close the body. */
  lemma SubmitEntriesImages(id: string, form: EditForm, images: seq<ImageItem>)
    ensures 6 + Selections(form) + |OrEmpty(form.colors)| <= |SubmitEntries(id, form, images)|
    ensures SubmitEntries(id, form, images)[6 + Selections(form) + |OrEmpty(form.colors)|..] == ImageEntries(images)
  {
    var head, ce, ie := HeadEntries(id, form), ColorPart(form), ImageEntries(images);
    HeadLayout(id, form);
    ColorPartAt(form);
    var r := SubmitEntries(id, form, images);
    assert r == (head + ce) + ie;
  }

  /** Where each part lands: the six fixed fields first; the category entry exactly when
      one is selected, and then before the brand entry; the colors; the images last. */
  lemma SubmitEntriesLayout(id: string, form: EditForm, images: seq<ImageItem>)
    ensures |SubmitEntries(id, form, images)| == 6 + Selections(form) + |OrEmpty(form.colors)| + |images|
    ensures SubmitEntries(id, form, images)[..6 + Selections(form)] == HeadEntries(id, form)
    ensures SubmitEntries(id, form, images)[..6] == FixedEntries(id, form)
    ensures form.categoryId.Some? ==>
              SubmitEntries(id, form, images)[6] == Entry("categoryId", Text(TextOf(form.categoryId.value.value)))
    ensures form.brandId.Some? ==>
              SubmitEntries(id, form, images)[5 + Selections(form)] == Entry("brandId", Text(TextOf(form.brandId.value.value)))
    ensures forall i :: 0 <= i < |OrEmpty(form.colors)| ==>
              SubmitEntries(id, form, images)[6 + Selections(form) + i] == Entry(ColorKey(i), Text(OrEmpty(form.colors)[i]))
    ensures SubmitEntries(id, form, images)[6 + Selections(form) + |OrEmpty(form.colors)|..] == ImageEntries(images)
  {
    SubmitEntriesHead(id, form, images);
    forall i | 0 <= i < |OrEmpty(form.colors)|
      ensures SubmitEntries(id, form, images)[6 + Selections(form) + i] == Entry(ColorKey(i), Text(OrEmpty(form.colors)[i]))
    {
      SubmitEntriesColor(id, form, images, i);
    }
    SubmitEntriesImages(id, form, images);
  }

  /** A loaded form always sends both selections, whatever the body held. */
  lemma LoadedFormSendsSelections(id: string, data: ProductData, images: seq<ImageItem>)
    ensures var r := SubmitEntries(id, LoadedForm(data), images);
            && r[6] == Entry("categoryId", Text(TextOf(data.categoryId)))
            && r[7] == Entry("brandId", Text(TextOf(data.brandId)))
  {
    SubmitEntriesLayout(id, LoadedForm(data), images);
  }

  /** Loading a body without the product's fields, such as an error response's, and
      submitting sends `undefined` for every field and both selections, and no color or
      image entries. */
  lemma ErrorBodySubmitsUndefined(id: string)
    ensures SubmitEntries(id, LoadedForm(NoProductFields), []) ==
      [ Entry("id", Text(id)), Entry("name", Text("undefined")), Entry("price", Text("undefined")),
        Entry("stockQuantity", Text("undefined")), Entry("description", Text("undefined")),
        Entry("moreDescription", Text("undefined")),
        Entry("categoryId", Text("undefined")), Entry("brandId", Text("undefined")) ]
  {
  }

  /** `onSubmit`'s `append` calls, in the order it makes them. */
  method BuildSubmitEntries(id: string, form: EditForm, images: seq<ImageItem>) returns (entries: seq<Entry>)
    ensures entries == SubmitEntries(id, form, images)
  {
    entries := [];
    entries := entries + [Entry("id", Text(id))];
    entries := entries + [Entry("name", Text(TextOf(form.name)))];
    entries := entries + [Entry("price", Text(TextOf(form.price)))];
    entries := entries + [Entry("stockQuantity", Text(TextOf(form.stockQuantity)))];
    entries := entries + [Entry("description", Text(TextOf(form.description)))];
    entries := entries + [Entry("moreDescription", Text(TextOf(form.moreDescription)))];
    assert entries == FixedEntries(id, form);
    if form.categoryId.Some? {
      entries := entries + [Entry("categoryId", Text(TextOf(form.categoryId.value.value)))];
    }
    assert entries == FixedEntries(id, form) + OptionalSelection("categoryId", form.categoryId);
    if form.brandId.Some? {
      entries := entries + [Entry("brandId", Text(TextOf(form.brandId.value.value)))];
    }
    assert entries == HeadEntries(id, form);
    if form.colors.Some? {
      entries := AppendColorEntries(entries, form.colors.value);
    }
    assert entries == HeadEntries(id, form) + ColorPart(form);
    entries := AppendImageEntries(entries, images);
  }

  /** The `images.forEach(...)` loop of `onSubmit`. */
  method AppendImageEntries(entries: seq<Entry>, images: seq<ImageItem>) returns (r: seq<Entry>)
    ensures r == entries + ImageEntries(images)
  {
    r := entries;
    var i := 0;
    while i < |images|
      invariant 0 <= i <= |images|
      invariant r == entries + ImageEntries(images[..i])
    {
      var file := images[i];
      if file.NewFile? {
        r := r + [Entry("images", Upload(file.file))];
      } else {
        r := r + [Entry(ExistingImageKey(i), Text(file.url))];
      }
      assert images[..i + 1][..i] == images[..i];
      i := i + 1;
    }
    assert images[..i] == images;
  }

  /** The component's state. */
  class ProductEditForm {
    /** The `id` route parameter. */
    const id: string
    var form: EditForm
    var colors: seq<string>
    var images: seq<ImageItem>
    var loading: bool

    constructor (id: string)
      ensures this.id == id && form == EmptyForm && colors == [] && images == [] && !loading
    {
      this.id := id;
      form := EmptyForm;
      colors := [];
      images := [];
      loading := false;
    }

    /** The mount effect: fetch the product (`response`) and load the returned body into
        the form whatever its status; a request that throws (no response, or a body that
        is not JSON) changes nothing. */
    method LoadProduct(response: Outcome<ProductData>)
      modifies this
      ensures response.Returned? ==>
                && form == LoadedForm(response.value)
                && colors == OrEmpty(response.value.colors)
                && images == seq(|OrEmpty(response.value.images)|, i requires 0 <= i < |OrEmpty(response.value.images)| =>
                                   Existing(OrEmpty(response.value.images)[i]))
      ensures response.Threw? ==> form == old(form) && colors == old(colors) && images == old(images)
      ensures loading == old(loading)
    {
      if response.Returned? {
        var data := response.value;
        form := LoadedForm(data);
        colors := if data.colors.Some? then data.colors.value else [];
        var urls := if data.images.Some? then data.images.value else [];
        images := seq(|urls|, i requires 0 <= i < |urls| => Existing(urls[i]));
      }
    }

    /** `handleImageUpload`: the picked files go after the images already listed. */
    method HandleImageUpload(files: seq<File>)
      modifies this
      ensures |images| == |old(images)| + |files|
      ensures images[..|old(images)|] == old(images)
      ensures forall j :: 0 <= j < |files| ==> images[|old(images)| + j] == NewFile(files[j])
      ensures form == old(form) && colors == old(colors) && loading == old(loading)
    {
      images := images + seq(|files|, j requires 0 <= j < |files| => NewFile(files[j]));
    }

    /** `onSubmit(data)`: builds the body and sends it (the outcome is `response`);
        `loading` ends false whatever the outcome, and nothing else changes. */
    method OnSubmit(response: FetchOutcome) returns (body: seq<Entry>)
      modifies this
      ensures body == SubmitEntries(id, old(form), old(images))
      ensures !loading
      ensures form == old(form) && colors == old(colors) && images == old(images)
    {
      loading := true;
      body := BuildSubmitEntries(id, form, images);
      loading := false;
    }
  }
}
