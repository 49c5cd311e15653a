/** The product-creation form: the attribute, color and image lists the user edits, the
    form values, and the `FormData` body that submitting builds. */
module ProductCreate {
  import opened Common
  import opened FormData
  import Lists

  /** One row of the attribute editor. */
  datatype Attribute = Attribute(key: string, value: string)

  /** The form's values, in the order the form declares them (and so the order in which
      `Object.entries` lists them). Each color is the `color` field of a color row. */
  datatype CreateForm = CreateForm(
    name: string, price: string, stockQuantity: string,
    categoryId: Option<SelectOption>, brandId: Option<SelectOption>,
    description: string, moreDescription: string,
    colors: seq<string>, attributes: seq<Attribute>, images: seq<File>)

  /** The declared default values, which `reset()` restores. */
  const DefaultForm: CreateForm := CreateForm("", "", "", None, None, "", "", [], [], [])

  const BlankAttribute: Attribute := Attribute("", "")
  const BlankColor: string := ""

  /** `value?.value` passed to `append`: the selected option's value, or the text of
      `undefined` when nothing is selected. */
  function SelectedValue(o: Option<SelectOption>): (t: string)
    ensures o.Some? ==> t == o.value.value
    ensures o.None? ==> t == "undefined"
  {
    if o.Some? then o.value.value else "undefined"
  }

  function AttributeKeyKey(index: nat): string
  {
    IndexedKey("attributes", index, ".key")
  }

  function AttributeValueKey(index: nat): string
  {
    IndexedKey("attributes", index, ".value")
  }

  /** The entries the attributes branch appends: `attributes[i].key` and then
      `attributes[i].value` for each row, rows in order. */
  function AttributeEntries(attrs: seq<Attribute>): (r: seq<Entry>)
    ensures |r| == 2 * |attrs|
    decreases |attrs|
  {
    if attrs == [] then []
    else
      var n := |attrs| - 1;
      AttributeEntries(attrs[..n])
        + [Entry(AttributeKeyKey(n), Text(attrs[n].key)), Entry(AttributeValueKey(n), Text(attrs[n].value))]
  }

  /** Row `i` gives entries `2i` (its key) and `2i + 1` (its value). */
  lemma {:induction false} AttributeEntryAt(attrs: seq<Attribute>, i: nat)
    requires i < |attrs|
    ensures AttributeEntries(attrs)[2 * i] == Entry(AttributeKeyKey(i), Text(attrs[i].key))
    ensures AttributeEntries(attrs)[2 * i + 1] == Entry(AttributeValueKey(i), Text(attrs[i].value))
    decreases |attrs|
  {
    var n := |attrs| - 1;
    var front := AttributeEntries(attrs[..n]);
    assert AttributeEntries(attrs) == front
      + [Entry(AttributeKeyKey(n), Text(attrs[n].key)), Entry(AttributeValueKey(n), Text(attrs[n].value))];
    if i < n {
      AttributeEntryAt(attrs[..n], i);
    }
  }

  /** Every row gives its key and value entries, at `2i` and `2i + 1`, and nothing else. */
  lemma AttributeEntriesAt(attrs: seq<Attribute>)
    ensures |AttributeEntries(attrs)| == 2 * |attrs|
    ensures forall i :: 0 <= i < |attrs| ==>
              AttributeEntries(attrs)[2 * i] == Entry(AttributeKeyKey(i), Text(attrs[i].key))
    ensures forall i :: 0 <= i < |attrs| ==>
              AttributeEntries(attrs)[2 * i + 1] == Entry(AttributeValueKey(i), Text(attrs[i].value))
  {
    forall i | 0 <= i < |attrs|
      ensures AttributeEntries(attrs)[2 * i] == Entry(AttributeKeyKey(i), Text(attrs[i].key))
      ensures AttributeEntries(attrs)[2 * i + 1] == Entry(AttributeValueKey(i), Text(attrs[i].value))
    {
      AttributeEntryAt(attrs, i);
    }
  }

  /** `images.forEach((image) => formData.append("images", image))`. */
  function FileEntries(files: seq<File>): (r: seq<Entry>)
    ensures |r| == |files|
    decreases |files|
  {
    if files == [] then []
    else FileEntries(files[..|files| - 1]) + [Entry("images", Upload(files[|files| - 1]))]
  }

  /** File `i` is entry `i`, uploaded under `images`. */
  lemma {:induction false} FileEntriesAt(files: seq<File>)
    ensures |FileEntries(files)| == |files|
    ensures forall i :: 0 <= i < |files| ==> FileEntries(files)[i] == Entry("images", Upload(files[i]))
    decreases |files|
  {
    if files != [] {
      FileEntriesAt(files[..|files| - 1]);
    }
  }

  /** The plain fields before the lists: the text fields as they are, the two selections
      by their value. */
  function ScalarEntries(form: CreateForm): seq<Entry>
  {
    [ Entry("name", Text(form.name)),
      Entry("price", Text(form.price)),
      Entry("stockQuantity", Text(form.stockQuantity)),
      Entry("categoryId", Text(SelectedValue(form.categoryId))),
      Entry("brandId", Text(SelectedValue(form.brandId))),
      Entry("description", Text(form.description)),
      Entry("moreDescription", Text(form.moreDescription)) ]
  }

  /** The entries of the single pass over the form's values: the scalar fields, the
      colors, the attributes, and the `images` value, which takes the generic branch and
      is appended as text. */
  function FieldEntries(form: CreateForm): seq<Entry>
  {
    ScalarEntries(form) + ColorEntries(form.colors) + AttributeEntries(form.attributes)
      + [Entry("images", Text(FilesText(form.images)))]
  }

  /** The body `onSubmit` builds: the form's entries, then one entry per image file of
      the image list. */
  function SubmitEntries(form: CreateForm, images: seq<File>): seq<Entry>
  {
    FieldEntries(form) + FileEntries(images)
  }

  /** The fixed fields open the body; the stringified image list closes it. */
  lemma FieldEntriesEnds(form: CreateForm)
    ensures |FieldEntries(form)| == 8 + |form.colors| + 2 * |form.attributes|
    ensures FieldEntries(form)[..7] == ScalarEntries(form)
    ensures FieldEntries(form)[7 + |form.colors| + 2 * |form.attributes|]
            == Entry("images", Text(FilesText(form.images)))
  {
    var s, ce, ae := ScalarEntries(form), ColorEntries(form.colors), AttributeEntries(form.attributes);
    assert FieldEntries(form) == s + (ce + ae + [Entry("images", Text(FilesText(form.images)))]);
  }

  /** Color `i` is field entry `7 + i`. */
  lemma FieldColorsAt(form: CreateForm, i: nat)
    requires i < |form.colors|
    ensures 7 + i < |FieldEntries(form)|
    ensures FieldEntries(form)[7 + i] == Entry(ColorKey(i), Text(form.colors[i]))
  {
    ColorEntryAt(form.colors, i);
    var s, ce, ae := ScalarEntries(form), ColorEntries(form.colors), AttributeEntries(form.attributes);
    var rest := ae + [Entry("images", Text(FilesText(form.images)))];
    assert FieldEntries(form) == (s + ce) + rest;
    assert (s + ce)[7 + i] == ce[i];
  }

  /** The attribute entries follow the scalar fields and the colors. */
  lemma FieldAttributeEntry(form: CreateForm, j: nat)
    requires j < |AttributeEntries(form.attributes)|
    ensures 7 + |form.colors| + j < |FieldEntries(form)|
    ensures FieldEntries(form)[7 + |form.colors| + j] == AttributeEntries(form.attributes)[j]
  {
    var s, ce, ae := ScalarEntries(form), ColorEntries(form.colors), AttributeEntries(form.attributes);
    var sc, rest := s + ce, ae + [Entry("images", Text(FilesText(form.images)))];
    assert FieldEntries(form) == sc + rest;
    assert rest[j] == ae[j];
  }

  /** Attribute row `i` is field entries `7 + |colors| + 2i` (key) and the one after
      it (value). */
  lemma FieldAttributesAt(form: CreateForm, i: nat)
    requires i < |form.attributes|
    ensures 8 + |form.colors| + 2 * i < |FieldEntries(form)|
    ensures FieldEntries(form)[7 + |form.colors| + 2 * i] == Entry(AttributeKeyKey(i), Text(form.attributes[i].key))
    ensures FieldEntries(form)[8 + |form.colors| + 2 * i] == Entry(AttributeValueKey(i), Text(form.attributes[i].value))
  {
    AttributeEntryAt(form.attributes, i);
    FieldAttributeEntry(form, 2 * i);
    FieldAttributeEntry(form, 2 * i + 1);
  }

  /** The image files come after every field entry, one each, in list order. */
  lemma SubmitEntriesLayout(form: CreateForm, images: seq<File>)
    ensures var f, r := FieldEntries(form), SubmitEntries(form, images);
            && |r| == |f| + |images|
            && r[..|f|] == f
            && (forall j :: 0 <= j < |images| ==> r[|f| + j] == Entry("images", Upload(images[j])))
  {
    FileEntriesAt(images);
    var f, r := FieldEntries(form), SubmitEntries(form, images);
    assert r[..|f|] == f;
  }

  /** After a successful submission the form is back at its defaults, while the attribute
      and color rows on screen are kept: the next submission sends none of them until a
      row is edited, added or removed. */
  lemma ResetFormSendsNoRows()
    ensures SubmitEntries(DefaultForm, []) ==
      [ Entry("name", Text("")), Entry("price", Text("")), Entry("stockQuantity", Text("")),
        Entry("categoryId", Text("undefined")), Entry("brandId", Text("undefined")),
        Entry("description", Text("")), Entry("moreDescription", Text("")),
        Entry("images", Text("")) ]
  {
  }

  /** `onSubmit`'s `append` calls, in the order it makes them. */
  method BuildSubmitEntries(form: CreateForm, images: seq<File>) returns (entries: seq<Entry>)
    ensures entries == SubmitEntries(form, images)
  {
    entries := [];
    entries := entries + [Entry("name", Text(form.name))];
    entries := entries + [Entry("price", Text(form.price))];
    entries := entries + [Entry("stockQuantity", Text(form.stockQuantity))];
    entries := entries + [Entry("categoryId", Text(SelectedValue(form.categoryId)))];
    entries := entries + [Entry("brandId", Text(SelectedValue(form.brandId)))];
    entries := entries + [Entry("description", Text(form.description))];
    entries := entries + [Entry("moreDescription", Text(form.moreDescription))];
    assert entries == ScalarEntries(form);
    entries := AppendColorEntries(entries, form.colors);
    entries := AppendAttributeEntries(entries, form.attributes);
    entries := entries + [Entry("images", Text(FilesText(form.images)))];
    assert entries == FieldEntries(form);
    entries := AppendFileEntries(entries, images);
  }

  /** The attributes branch: `value.forEach((attr, index) => ...)`. */
  method AppendAttributeEntries(entries: seq<Entry>, attrs: seq<Attribute>) returns (r: seq<Entry>)
    ensures r == entries + AttributeEntries(attrs)
  {
    r := entries;
    var i := 0;
    while i < |attrs|
      invariant 0 <= i <= |attrs|
      invariant r == entries + AttributeEntries(attrs[..i])
    {
      var attr := attrs[i];
      r := r + [Entry(AttributeKeyKey(i), Text(attr.key))];
      r := r + [Entry(AttributeValueKey(i), Text(attr.value))];
      assert attrs[..i + 1][..i] == attrs[..i];
      i := i + 1;
    }
    assert attrs[..i] == attrs;
  }

  /** `images.forEach((image) => formData.append("images", image))`. */
  method AppendFileEntries(entries: seq<Entry>, files: seq<File>) returns (r: seq<Entry>)
    ensures r == entries + FileEntries(files)
  {
    r := entries;
    var i := 0;
    while i < |files|
      invariant 0 <= i <= |files|
      invariant r == entries + FileEntries(files[..i])
    {
      r := r + [Entry("images", Upload(files[i]))];
      assert files[..i + 1][..i] == files[..i];
      i := i + 1;
    }
    assert files[..i] == files;
  }

  /** The component's state: the form values and the three lists it keeps beside them.
      Each list is copied into the form by an effect whenever it is replaced; the
      methods below include that copy. */
  class ProductCreateForm {
    var form: CreateForm
    var attributes: seq<Attribute>
    var colors: seq<string>
    var images: seq<File>
    var loading: bool

    /** Mounting: one blank attribute row, one blank color row, no images, and the
        effects' first copy of the lists into the form. */
    constructor ()
      ensures attributes == [BlankAttribute] && colors == [BlankColor] && images == []
      ensures form == DefaultForm.(attributes := [BlankAttribute], colors := [BlankColor])
      ensures !loading
    {
      attributes := [Attribute("", "")];
      colors := [""];
      images := [];
      loading := false;
      form := DefaultForm;
      new;
      form := form.(attributes := attributes);
      form := form.(colors := colors);
      form := form.(images := images);
    }

    /** `setAttributes(updated)` and the effect that copies the list into the form. */
    method SetAttributes(updated: seq<Attribute>)
      modifies this
      ensures attributes == updated && form == old(form).(attributes := updated)
      ensures colors == old(colors) && images == old(images) && loading == old(loading)
    {
      attributes := updated;
      form := form.(attributes := attributes);
    }

    method SetColors(updated: seq<string>)
      modifies this
      ensures colors == updated && form == old(form).(colors := updated)
      ensures attributes == old(attributes) && images == old(images) && loading == old(loading)
    {
      colors := updated;
      form := form.(colors := colors);
    }

    method SetImages(updated: seq<File>)
      modifies this
      ensures images == updated && form == old(form).(images := updated)
      ensures attributes == old(attributes) && colors == old(colors) && loading == old(loading)
    {
      images := updated;
      form := form.(images := images);
    }

    /** The "add attribute" button: one blank row at the end. */
    method AddAttribute()
      modifies this
      ensures attributes == old(attributes) + [BlankAttribute] && form == old(form).(attributes := attributes)
      ensures colors == old(colors) && images == old(images) && loading == old(loading)
    {
      SetAttributes(attributes + [Attribute("", "")]);
    }

    /** The remove button of row `index`. */
    method RemoveAttribute(index: int)
      modifies this
      ensures attributes == Lists.RemoveAt(old(attributes), index) && form == old(form).(attributes := attributes)
      ensures colors == old(colors) && images == old(images) && loading == old(loading)
    {
      SetAttributes(Lists.RemoveAt(attributes, index));
    }

    /** Typing in the key input of row `index`. */
    method EditAttributeKey(index: nat, key: string)
      requires index < |attributes|
      modifies this
      ensures |attributes| == |old(attributes)| && attributes[index] == old(attributes[index]).(key := key)
      ensures forall k :: 0 <= k < |attributes| && k != index ==> attributes[k] == old(attributes[k])
      ensures form == old(form).(attributes := attributes)
      ensures colors == old(colors) && images == old(images) && loading == old(loading)
    {
      var updated := attributes;
      updated := Lists.ReplaceAt(updated, index, updated[index].(key := key));
      SetAttributes(updated);
    }

    /** Typing in the value input of row `index`. */
    method EditAttributeValue(index: nat, value: string)
      requires index < |attributes|
      modifies this
      ensures |attributes| == |old(attributes)| && attributes[index] == old(attributes[index]).(value := value)
      ensures forall k :: 0 <= k < |attributes| && k != index ==> attributes[k] == old(attributes[k])
      ensures form == old(form).(attributes := attributes)
      ensures colors == old(colors) && images == old(images) && loading == old(loading)
    {
      var updated := attributes;
      updated := Lists.ReplaceAt(updated, index, updated[index].(value := value));
      SetAttributes(updated);
    }

    method AddColor()
      modifies this
      ensures colors == old(colors) + [BlankColor] && form == old(form).(colors := colors)
      ensures attributes == old(attributes) && images == old(images) && loading == old(loading)
    {
      SetColors(colors + [""]);
    }

    method RemoveColor(index: int)
      modifies this
      ensures colors == Lists.RemoveAt(old(colors), index) && form == old(form).(colors := colors)
      ensures attributes == old(attributes) && images == old(images) && loading == old(loading)
    {
      SetColors(Lists.RemoveAt(colors, index));
    }

    method EditColor(index: nat, color: string)
      requires index < |colors|
      modifies this
      ensures |colors| == |old(colors)| && colors[index] == color
      ensures forall k :: 0 <= k < |colors| && k != index ==> colors[k] == old(colors[k])
      ensures form == old(form).(colors := colors)
      ensures attributes == old(attributes) && images == old(images) && loading == old(loading)
    {
      var updated := colors;
      updated := Lists.ReplaceAt(updated, index, color);
      SetColors(updated);
    }

    /** `handleImagesChange`: the picked files go after the images already chosen. */
    method HandleImagesChange(files: seq<File>)
      modifies this
      ensures images == old(images) + files && form == old(form).(images := images)
      ensures attributes == old(attributes) && colors == old(colors) && loading == old(loading)
    {
      SetImages(images + files);
    }

    /** `removeImage(index)`. */
    method RemoveImage(index: int)
      modifies this
      ensures images == Lists.RemoveAt(old(images), index) && form == old(form).(images := images)
      ensures attributes == old(attributes) && colors == old(colors) && loading == old(loading)
    {
      SetImages(Lists.RemoveAt(images, index));
    }

    /** `onSubmit(data)`: builds the body, posts it (the outcome is `response`), and on
        an ok response resets the form and clears the images. */
    method OnSubmit(response: FetchOutcome) returns (body: seq<Entry>)
      modifies this
      ensures body == SubmitEntries(old(form), old(images))
      ensures !loading
      ensures attributes == old(attributes) && colors == old(colors)
      ensures Succeeded(response) ==> form == DefaultForm && images == []
      ensures !Succeeded(response) ==> form == old(form) && images == old(images)
    {
      loading := true;
      body := BuildSubmitEntries(form, images);
      if Succeeded(response) {
        form := DefaultForm;
        SetImages([]);
      }
      loading := false;
    }
  }
}
