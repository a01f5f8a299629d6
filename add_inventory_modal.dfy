/** The add-item dialog: the form, its validation, the error messages cleared on
    edit, the image list sent with the new item, and the submission. */
module AddInventoryModal {
  import opened Wrappers
  import opened Text
  import opened Records
  import opened Remote
  import opened InventoryService
  import opened Store

  /** The form's fields. The three rates are held already parsed: `None` for an
      empty or non-numeric entry. */
  datatype ItemForm = ItemForm(
    name: string,
    sku: string,
    brand: string,
    category: string,
    size: string,
    color: string,
    description: string,
    condition: Condition,
    dailyRate: Option<int>,
    weeklyRate: Option<int>,
    monthlyRate: Option<int>,
    status: ItemStatus,
    imageUrl: string,
    images: seq<string>)

  /** The form as the dialog opens. */
  const InitialForm := ItemForm("", "", "", "", "", "", "", Excellent, None, None, None, Available, "", [])

  const Categories: seq<string> := ["Evening Wear", "Formal Wear", "Cocktail Wear", "Business Wear"]
  const Sizes: seq<string> := ["XS", "S", "M", "L", "XL", "XXL"]
  const Conditions: seq<Condition> := [Excellent, Good, Fair]
  const Statuses: seq<ItemStatus> := [Available, Rented, Maintenance]

  /** The dialog offers no way to add an item in poor condition, and it opens
      on an offered condition and status. */
  lemma OfferedChoices()
    ensures Poor !in Conditions
    ensures InitialForm.condition in Conditions && InitialForm.status in Statuses
  {
  }

  datatype ItemField =
    | NameInput | SkuInput | BrandInput | CategoryInput | SizeInput | ColorInput
    | DescriptionInput | ConditionInput | DailyRateInput | WeeklyRateInput
    | MonthlyRateInput | StatusInput | ImageUrlInput

  const NameRequired := "Item name is required"
  const SkuRequired := "SKU is required"
  const BrandRequired := "Brand is required"
  const CategoryRequired := "Category is required"
  const SizeRequired := "Size is required"
  const ColorRequired := "Color is required"
  const UrlInvalid := "Please enter a valid URL (must start with http:// or https://)"
  const DailyRateInvalid := "Valid daily rate is required"
  const WeeklyRateInvalid := "Valid weekly rate is required"
  const MonthlyRateInvalid := "Valid monthly rate is required"

  /** The pattern `^https?:\/\/.+` with the `i` flag: `http://` or `https://` in
      any letter case, then a character that is not a line terminator. */
  predicate UrlShaped(t: string) {
    (|t| > 7 && Lower(t[..7]) == "http://" && !IsLineTerminator(t[7]))
    || (|t| > 8 && Lower(t[..8]) == "https://" && !IsLineTerminator(t[8]))
  }

  /** Changing the letter case of a URL does not change whether it is accepted. */
  lemma UrlCaseInsensitive(t: string)
    ensures UrlShaped(t) <==> UrlShaped(Lower(t))
  {
    var u := Lower(t);
    if |t| > 7 {
      assert Lower(u[..7]) == Lower(t[..7]);
      assert !IsLineTerminator(u[7]) <==> !IsLineTerminator(t[7]);
    }
    if |t| > 8 {
      assert Lower(u[..8]) == Lower(t[..8]);
      assert !IsLineTerminator(u[8]) <==> !IsLineTerminator(t[8]);
    }
  }

  /** `!rate || isNaN(rate) || parseFloat(rate) <= 0` does not hold. */
  predicate RateOk(rate: Option<int>) {
    rate.Some? && rate.value > 0
  }

  /** Everything `validateForm` checks, at once. */
  predicate Acceptable(form: ItemForm) {
    !IsBlank(form.name) && !IsBlank(form.sku) && !IsBlank(form.brand)
    && form.category != "" && form.size != "" && !IsBlank(form.color)
    && (IsBlank(form.imageUrl) || UrlShaped(Trim(form.imageUrl)))
    && RateOk(form.dailyRate) && RateOk(form.weeklyRate) && RateOk(form.monthlyRate)
  }

  /** The six required text fields. */
  predicate IsRequiredField(f: ItemField) {
    f.NameInput? || f.SkuInput? || f.BrandInput? || f.CategoryInput? || f.SizeInput? || f.ColorInput?
  }

  /** The three rates. */
  predicate IsRateField(f: ItemField) {
    f.DailyRateInput? || f.WeeklyRateInput? || f.MonthlyRateInput?
  }

  /** The messages of the required-field checks: one per blank field, and no
      other field. */
  predicate RequiredReported(form: ItemForm, errors: map<ItemField, string>) {
    (forall f :: f in errors ==> IsRequiredField(f)) && RequiredMessages(form, errors)
  }

  /** The required fields' entries in a message map. */
  predicate RequiredMessages(form: ItemForm, errors: map<ItemField, string>) {
    (NameInput in errors <==> IsBlank(form.name))
    && (SkuInput in errors <==> IsBlank(form.sku))
    && (BrandInput in errors <==> IsBlank(form.brand))
    && (CategoryInput in errors <==> form.category == "")
    && (SizeInput in errors <==> form.size == "")
    && (ColorInput in errors <==> IsBlank(form.color))
    && (NameInput in errors ==> errors[NameInput] == NameRequired)
    && (SkuInput in errors ==> errors[SkuInput] == SkuRequired)
    && (BrandInput in errors ==> errors[BrandInput] == BrandRequired)
    && (CategoryInput in errors ==> errors[CategoryInput] == CategoryRequired)
    && (SizeInput in errors ==> errors[SizeInput] == SizeRequired)
    && (ColorInput in errors ==> errors[ColorInput] == ColorRequired)
  }

  /** The message of the image URL check, and no other field. */
  predicate UrlReported(form: ItemForm, errors: map<ItemField, string>) {
    (forall f :: f in errors ==> f == ImageUrlInput) && UrlMessage(form, errors)
  }

  /** The image URL's entry in a message map. */
  predicate UrlMessage(form: ItemForm, errors: map<ItemField, string>) {
    (ImageUrlInput in errors <==> !IsBlank(form.imageUrl) && !UrlShaped(Trim(form.imageUrl)))
    && (ImageUrlInput in errors ==> errors[ImageUrlInput] == UrlInvalid)
  }

  /** The messages of the rate checks: one per rate that is not above 0, and no
      other field. */
  predicate RatesReported(form: ItemForm, errors: map<ItemField, string>) {
    (forall f :: f in errors ==> IsRateField(f)) && RateMessages(form, errors)
  }

  /** The rates' entries in a message map. */
  predicate RateMessages(form: ItemForm, errors: map<ItemField, string>) {
    (DailyRateInput in errors <==> !RateOk(form.dailyRate))
    && (WeeklyRateInput in errors <==> !RateOk(form.weeklyRate))
    && (MonthlyRateInput in errors <==> !RateOk(form.monthlyRate))
    && (DailyRateInput in errors ==> errors[DailyRateInput] == DailyRateInvalid)
    && (WeeklyRateInput in errors ==> errors[WeeklyRateInput] == WeeklyRateInvalid)
    && (MonthlyRateInput in errors ==> errors[MonthlyRateInput] == MonthlyRateInvalid)
  }

  /** The first six checks of `validateForm`: the required text fields. */
  method CheckRequired(form: ItemForm) returns (errors: map<ItemField, string>)
    ensures RequiredReported(form, errors)
    ensures errors == map[] <==>
      !IsBlank(form.name) && !IsBlank(form.sku) && !IsBlank(form.brand)
      && form.category != "" && form.size != "" && !IsBlank(form.color)
  {
    TrimEmptyIffBlank(form.name);
    TrimEmptyIffBlank(form.sku);
    TrimEmptyIffBlank(form.brand);
    TrimEmptyIffBlank(form.color);
    errors := map[];
    if Trim(form.name) == "" {
      errors := errors[NameInput := NameRequired];
    }
    if Trim(form.sku) == "" {
      errors := errors[SkuInput := SkuRequired];
    }
    if Trim(form.brand) == "" {
      errors := errors[BrandInput := BrandRequired];
    }
    if form.category == "" {
      errors := errors[CategoryInput := CategoryRequired];
    }
    if form.size == "" {
      errors := errors[SizeInput := SizeRequired];
    }
    if Trim(form.color) == "" {
      errors := errors[ColorInput := ColorRequired];
    }
  }

  /** The seventh check of `validateForm`: an image URL, when one is typed in,
      must match the pattern once trimmed. */
  method CheckImageUrl(form: ItemForm) returns (errors: map<ItemField, string>)
    ensures UrlReported(form, errors)
    ensures errors == map[] <==> IsBlank(form.imageUrl) || UrlShaped(Trim(form.imageUrl))
  {
    TrimEmptyIffBlank(form.imageUrl);
    errors := map[];
    if form.imageUrl != "" && Trim(form.imageUrl) != "" {
      if !UrlShaped(Trim(form.imageUrl)) {
        errors := errors[ImageUrlInput := UrlInvalid];
      }
    }
  }

  /** The last three checks of `validateForm`: the rates. */
  method CheckRates(form: ItemForm) returns (errors: map<ItemField, string>)
    ensures RatesReported(form, errors)
    ensures errors == map[] <==> RateOk(form.dailyRate) && RateOk(form.weeklyRate) && RateOk(form.monthlyRate)
  {
    errors := map[];
    if form.dailyRate.None? || form.dailyRate.value <= 0 {
      errors := errors[DailyRateInput := DailyRateInvalid];
    }
    if form.weeklyRate.None? || form.weeklyRate.value <= 0 {
      errors := errors[WeeklyRateInput := WeeklyRateInvalid];
    }
    if form.monthlyRate.None? || form.monthlyRate.value <= 0 {
      errors := errors[MonthlyRateInput := MonthlyRateInvalid];
    }
    if !RateOk(form.dailyRate) {
      assert DailyRateInput in errors;
    } else if !RateOk(form.weeklyRate) {
      assert WeeklyRateInput in errors;
    } else if !RateOk(form.monthlyRate) {
      assert MonthlyRateInput in errors;
    }
  }

  lemma KeysEmpty(errors: map<ItemField, string>)
    ensures |errors.Keys| == 0 <==> errors == map[]
  {
    if errors != map[] {
      var f :| f in errors;
      assert f in errors.Keys;
    }
  }

  /** The messages `validateForm` collects for a form: one per failing field,
      with that field's text, and none for the description, condition or status. */
  predicate ReportsItemFailures(form: ItemForm, errors: map<ItemField, string>) {
    RequiredMessages(form, errors) && UrlMessage(form, errors) && RateMessages(form, errors)
    && DescriptionInput !in errors && ConditionInput !in errors && StatusInput !in errors
  }

  /** `validateForm`: one message per failing field; valid when there is none. */
  method ValidateItemForm(form: ItemForm) returns (valid: bool, errors: map<ItemField, string>)
    ensures ReportsItemFailures(form, errors)
    ensures valid <==> errors == map[]
    ensures valid <==> Acceptable(form)
  {
    var required := CheckRequired(form);
    var url := CheckImageUrl(form);
    var rates := CheckRates(form);
    errors := required + url + rates;
    valid := |errors.Keys| == 0;
    KeysEmpty(errors);
    UnionEmpty(required, url, rates);
    UnionReports(form, required, url, rates);
  }

  /** The three checks' messages, put together, are the form's messages. */
  lemma UnionReports(form: ItemForm, required: map<ItemField, string>, url: map<ItemField, string>,
                     rates: map<ItemField, string>)
    requires RequiredReported(form, required)
    requires UrlReported(form, url)
    requires RatesReported(form, rates)
    ensures ReportsItemFailures(form, required + url + rates)
  {
    RequiredKept(form, required, url, rates);
    UrlKept(form, required, url, rates);
    RatesKept(form, required, url, rates);
  }

  /** Entries for other fields after them keep the required fields' entries. */
  lemma RequiredKept(form: ItemForm, required: map<ItemField, string>, url: map<ItemField, string>,
                     rates: map<ItemField, string>)
    requires RequiredMessages(form, required)
    requires forall f :: f in url ==> f == ImageUrlInput
    requires forall f :: f in rates ==> IsRateField(f)
    ensures RequiredMessages(form, required + url + rates)
  {
  }

  /** Entries for other fields around it keep the image URL's entry. */
  lemma UrlKept(form: ItemForm, required: map<ItemField, string>, url: map<ItemField, string>,
                rates: map<ItemField, string>)
    requires UrlMessage(form, url)
    requires forall f :: f in required ==> IsRequiredField(f)
    requires forall f :: f in rates ==> IsRateField(f)
    ensures UrlMessage(form, required + url + rates)
  {
  }

  /** Entries for other fields before them keep the rates' entries. */
  lemma RatesKept(form: ItemForm, required: map<ItemField, string>, url: map<ItemField, string>,
                  rates: map<ItemField, string>)
    requires RateMessages(form, rates)
    requires forall f :: f in required ==> IsRequiredField(f)
    requires forall f :: f in url ==> f == ImageUrlInput
    ensures RateMessages(form, required + url + rates)
  {
  }

  lemma UnionEmpty(a: map<ItemField, string>, b: map<ItemField, string>, c: map<ItemField, string>)
    ensures a + b + c == map[] <==> a == map[] && b == map[] && c == map[]
  {
    if a + b + c == map[] {
      assert forall k :: k in a ==> k in a + b + c;
      assert forall k :: k in b ==> k in a + b + c;
    }
  }


  /** The stock photo used when the form holds no image. */
  const Placeholder := "https://" + "images.unsplash.com/" + "photo-1515886657613-9f3515b0c78f"
                       + "?w=300&h=400&fit=crop&crop=faces"

  /** The `images` sent with the new item: the trimmed URL typed in, else the
      images already held, else the placeholder. */
  function ImageList(form: ItemForm): (l: seq<string>)
    ensures |l| >= 1
    ensures !IsBlank(form.imageUrl) ==> l == [Trim(form.imageUrl)]
    ensures IsBlank(form.imageUrl) && |form.images| > 0 ==> l == form.images
    ensures IsBlank(form.imageUrl) && form.images == [] ==> l == [Placeholder]
  {
    TrimEmptyIffBlank(form.imageUrl);
    if Trim(form.imageUrl) != "" then [Trim(form.imageUrl)]
    else if |form.images| > 0 then form.images
    else [Placeholder]
  }

  /** For a form that passed validation and holds no images, the first image
      sent is a URL the form itself would accept. */
  lemma FirstImageIsUrl(form: ItemForm)
    requires Acceptable(form) && form.images == []
    ensures UrlShaped(ImageList(form)[0])
  {
    TrimEmptyIffBlank(form.imageUrl);
    if IsBlank(form.imageUrl) {
      var p := Placeholder[..8];
      assert p == "https://";
      assert forall i | 0 <= i < 8 :: LowerChar(p[i]) == p[i];
      assert Lower(p) == p;
      var host := "images.unsplash.com/";
      assert host[0] == 'i';
      assert Placeholder[8] == host[0];
    }
  }

  /** The record handed to the inventory service as written: the form's fields
      with the rates under their own names and an `images` list. The service
      reads neither, so the draft names no rental price and no photo. */
  function SubmittedDraft(form: ItemForm): ItemDraft {
    ItemDraft(form.name, form.sku, form.category, form.size, form.color, form.brand,
              None, None, None, None, Some(form.status), Some(form.condition), None, None)
  }

  /** As written, every item added through the dialog is stored with rental
      price 0 and no photo, whatever daily rate and image the form held. */
  lemma SubmittedRateLost(id: int, form: ItemForm, now: int)
    ensures NewItem(id, SubmittedDraft(form), now).rentalPrice == 0
    ensures NewItem(id, SubmittedDraft(form), now).photoUrl == ""
    ensures NewItem(id, SubmittedDraft(form), now).status == form.status || StatusText(form.status) == ""
  {
  }

  /** The draft the dialog evidently means to send: the daily rate as the rental
      price and the first image as the photo. */
  function IntendedDraft(form: ItemForm): ItemDraft {
    ItemDraft(form.name, form.sku, form.category, form.size, form.color, form.brand,
              None, None, form.dailyRate, None, Some(form.status), Some(form.condition),
              Some(ImageList(form)[0]), None)
  }

  /** The intended draft stores the validated daily rate and the first image. */
  lemma IntendedDraftKeepsRate(id: int, form: ItemForm, now: int)
    requires Acceptable(form)
    ensures NewItem(id, IntendedDraft(form), now).rentalPrice == form.dailyRate.value
    ensures ImageList(form)[0] != "" ==> NewItem(id, IntendedDraft(form), now).photoUrl == ImageList(form)[0]
    ensures NewItem(id, IntendedDraft(form), now).name == form.name
  {
  }

  /** A value typed or picked into one field. */
  datatype FieldValue =
    | TextValue(text: string)
    | RateValue(rate: Option<int>)
    | ConditionValue(condition: Condition)
    | StatusValue(status: ItemStatus)

  /** `{ ...prev, [field]: value }`. A value of the wrong kind for the field,
      which no control of the dialog produces, leaves the form as it was. */
  function WithField(form: ItemForm, field: ItemField, value: FieldValue): ItemForm {
    match (field, value)
    case (NameInput, TextValue(t)) => form.(name := t)
    case (SkuInput, TextValue(t)) => form.(sku := t)
    case (BrandInput, TextValue(t)) => form.(brand := t)
    case (CategoryInput, TextValue(t)) => form.(category := t)
    case (SizeInput, TextValue(t)) => form.(size := t)
    case (ColorInput, TextValue(t)) => form.(color := t)
    case (DescriptionInput, TextValue(t)) => form.(description := t)
    case (ImageUrlInput, TextValue(t)) => form.(imageUrl := t)
    case (ConditionInput, ConditionValue(c)) => form.(condition := c)
    case (StatusInput, StatusValue(s)) => form.(status := s)
    case (DailyRateInput, RateValue(r)) => form.(dailyRate := r)
    case (WeeklyRateInput, RateValue(r)) => form.(weeklyRate := r)
    case (MonthlyRateInput, RateValue(r)) => form.(monthlyRate := r)
    case _ => form
  }

  /** The value a field of the form holds. */
  function FieldOf(form: ItemForm, field: ItemField): FieldValue {
    match field
    case NameInput => TextValue(form.name)
    case SkuInput => TextValue(form.sku)
    case BrandInput => TextValue(form.brand)
    case CategoryInput => TextValue(form.category)
    case SizeInput => TextValue(form.size)
    case ColorInput => TextValue(form.color)
    case DescriptionInput => TextValue(form.description)
    case ImageUrlInput => TextValue(form.imageUrl)
    case ConditionInput => ConditionValue(form.condition)
    case StatusInput => StatusValue(form.status)
    case DailyRateInput => RateValue(form.dailyRate)
    case WeeklyRateInput => RateValue(form.weeklyRate)
    case MonthlyRateInput => RateValue(form.monthlyRate)
  }

  /** Whether a value is of the kind a field holds. */
  predicate Fits(field: ItemField, value: FieldValue) {
    match field
    case ConditionInput => value.ConditionValue?
    case StatusInput => value.StatusValue?
    case DailyRateInput | WeeklyRateInput | MonthlyRateInput => value.RateValue?
    case _ => value.TextValue?
  }

  /** Two forms with the same value in every field and the same image list are
      the same form. */
  lemma {:induction false} FieldsDetermineForm(a: ItemForm, b: ItemForm)
    requires forall g :: FieldOf(a, g) == FieldOf(b, g)
    requires a.images == b.images
    ensures a == b
  {
    assert FieldOf(a, NameInput) == FieldOf(b, NameInput);
    assert FieldOf(a, SkuInput) == FieldOf(b, SkuInput);
    assert FieldOf(a, BrandInput) == FieldOf(b, BrandInput);
    assert FieldOf(a, CategoryInput) == FieldOf(b, CategoryInput);
    assert FieldOf(a, SizeInput) == FieldOf(b, SizeInput);
    assert FieldOf(a, ColorInput) == FieldOf(b, ColorInput);
    assert FieldOf(a, DescriptionInput) == FieldOf(b, DescriptionInput);
    assert FieldOf(a, ImageUrlInput) == FieldOf(b, ImageUrlInput);
    assert FieldOf(a, ConditionInput) == FieldOf(b, ConditionInput);
    assert FieldOf(a, StatusInput) == FieldOf(b, StatusInput);
    assert FieldOf(a, DailyRateInput) == FieldOf(b, DailyRateInput);
    assert FieldOf(a, WeeklyRateInput) == FieldOf(b, WeeklyRateInput);
    assert FieldOf(a, MonthlyRateInput) == FieldOf(b, MonthlyRateInput);
  }

  /** `{ ...prev, [field]: value }` writes the value into its field and leaves
      every other field, and the image list, as they were; a value of the wrong
      kind changes nothing. */
  lemma EditChangesOnlyThatField(form: ItemForm, field: ItemField, value: FieldValue)
    ensures Fits(field, value) ==> FieldOf(WithField(form, field, value), field) == value
    ensures forall g :: g != field ==> FieldOf(WithField(form, field, value), g) == FieldOf(form, g)
    ensures WithField(form, field, value).images == form.images
    ensures !Fits(field, value) ==> WithField(form, field, value) == form
  {
  }

  /** The dialog's state. */
  class AddItemDialog {
    var form: ItemForm
    var errors: map<ItemField, string>

    constructor ()
      ensures form == InitialForm && errors == map[]
    {
      form := InitialForm;
      errors := map[];
    }

    /** `handleInputChange`: stores the value and blanks that field's message if
        it had one; every other field's message stays. */
    method HandleInputChange(field: ItemField, value: FieldValue)
      modifies this
      ensures form == WithField(old(form), field, value)
      ensures errors == if field in old(errors) && old(errors)[field] != ""
                        then old(errors)[field := ""] else old(errors)
      ensures forall f :: f != field && f in old(errors) ==> f in errors && errors[f] == old(errors)[f]
    {
      form := WithField(form, field, value);
      if field in errors && errors[field] != "" {
        errors := errors[field := ""];
      }
    }

    /** `handleSubmit`: an invalid form creates nothing; a valid one is sent to
        the inventory service as the dialog builds it (`SubmittedDraft`), so the
        stored item has rental price 0 and no photo. `IntendedDraft` is the
        draft that would keep the daily rate. */
    method HandleSubmit(store: RecordStore, now: int, reply: Reply) returns (created: Option<Item>)
      requires store.Valid()
      modifies this, store
      ensures store.Valid()
      ensures form == old(form)
      ensures store.rentals == old(store.rentals) && store.customers == old(store.customers)
      ensures ReportsItemFailures(form, errors)
      ensures errors == map[] <==> Acceptable(form)
      ensures created.Some? <==> Acceptable(form) && WriteError(reply, CreateItemFailed).None?
      ensures created.None? ==> store.items == old(store.items)
      ensures created.Some? ==>
        errors == map[] && created.value == NewItem(old(store.nextId), SubmittedDraft(form), now)
        && created.value.rentalPrice == 0 && created.value.photoUrl == ""
        && created.value.name == form.name && created.value.category == form.category
        && store.items == old(store.items)[created.value.id := created.value]
    {
      var valid, newErrors := ValidateItemForm(form);
      errors := newErrors;
      if !valid {
        return None;
      }
      var res := store.CreateItem(SubmittedDraft(form), now, reply);
      if res.Err? {
        return None;
      }
      return Some(res.value);
    }
  }
}
