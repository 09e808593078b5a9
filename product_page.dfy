/** The product detail page: the colour and size selection, the order form
    behind "Buy Now" and the item handed over by "Add to Cart". */
module ProductPage {
  import opened Wrappers
  import opened Text
  import opened Store
  import Catalog

  /** The position of the first variant of the given colour: the variant
      `find` returns when it compares colours. */
  function FindColor(variants: seq<Variant>, color: string): (r: Option<nat>)
    ensures r.Some? ==> r.value < |variants| && variants[r.value].color == color
    ensures r.Some? ==> forall j :: 0 <= j < r.value ==> variants[j].color != color
    ensures r.None? <==> forall j :: 0 <= j < |variants| ==> variants[j].color != color
  {
    if variants == [] then None
    else if variants[0].color == color then Some(0)
    else match FindColor(variants[1..], color)
      case None => None
      case Some(k) => Some(k + 1)
  }

  /** The id of the first variant of that colour, or nothing (an optional
      read of `id` on the result of `find`). */
  function VariantIdFor(variants: seq<Variant>, color: string): (r: Option<int>)
    ensures r.None? <==> forall v :: v in variants ==> v.color != color
    ensures r.Some? ==> exists v :: v in variants && v.color == color && v.id == r.value
    // the id is the first matching variant's, even when colours repeat
    ensures r == if FindColor(variants, color).Some? then Some(variants[FindColor(variants, color).value].id) else None
  {
    match FindColor(variants, color)
    case None => None
    case Some(k) => Some(variants[k].id)
  }

  /** The size a colour starts with: `sizes.split(',')[0].trim()`. */
  function DefaultSize(sizes: string): (r: string)
    ensures ',' !in r
    ensures r != [] ==> !IsSpace(r[0]) && !IsSpace(r[|r| - 1])
  {
    Trim(Split(sizes, ',')[0])
  }

  /** The default size is the trimmed text before the first comma (all of the
      text when there is no comma). */
  lemma DefaultSizeBeforeFirstComma(sizes: string, k: nat)
    requires k <= |sizes| && ',' !in sizes[..k]
    requires k == |sizes| || sizes[k] == ','
    ensures DefaultSize(sizes) == Trim(sizes[..k])
  {
    var w := Split(sizes, ',')[0];
    if |w| < k {
      assert false;
    } else if |w| > k {
      assert false;
    }
  }

  /** The size buttons for a variant: the comma-split of its sizes, each
      piece trimmed.
      The first button is the default size. */
  function SizeOptions(sizes: string): (r: seq<string>)
    ensures |r| >= 1 && r[0] == DefaultSize(sizes)
  {
    TrimAll(Split(sizes, ','))
  }

  /** `pieces.map(s => s.trim())`. */
  function TrimAll(pieces: seq<string>): (r: seq<string>)
    ensures |r| == |pieces|
    ensures forall i :: 0 <= i < |r| ==> r[i] == Trim(pieces[i])
  {
    if pieces == [] then [] else [Trim(pieces[0])] + TrimAll(pieces[1..])
  }

  /** Each size button is one comma-free piece of the list with its
      surrounding whitespace removed, and joining the untrimmed pieces gives
      back the list. */
  lemma SizeOptionsAreTrimmedPieces(sizes: string)
    ensures var pieces := Split(sizes, ',');
            && Join(pieces, ',') == sizes
            && SizeOptions(sizes) == TrimAll(pieces)
            && forall i :: 0 <= i < |pieces| ==> ',' !in SizeOptions(sizes)[i]
  {
    var pieces := Split(sizes, ',');
    JoinSplit(sizes, ',');
    forall i | 0 <= i < |pieces| ensures ',' !in SizeOptions(sizes)[i] {
      assert SizeOptions(sizes)[i] == Trim(pieces[i]);
    }
  }

  /** The size buttons shown for the selected colour: none when no variant has
      that colour (`find(...)?.sizes` is undefined). */
  function DisplayedSizes(variants: seq<Variant>, color: string): (r: seq<string>)
    ensures r == [] <==> FindColor(variants, color).None?
    ensures FindColor(variants, color).Some? ==> r == SizeOptions(variants[FindColor(variants, color).value].sizes)
  {
    match FindColor(variants, color)
    case None => []
    case Some(k) => SizeOptions(variants[k].sizes)
  }

  /** Choosing the first variant's colour lists that variant's sizes, led by
      the size it starts on. */
  lemma FirstVariantSizes(variants: seq<Variant>)
    requires |variants| > 0
    ensures DisplayedSizes(variants, variants[0].color) == SizeOptions(variants[0].sizes)
    ensures DisplayedSizes(variants, variants[0].color)[0] == DefaultSize(variants[0].sizes)
  {
    assert FindColor(variants, variants[0].color) == Some(0);
  }

  /** The fields of the order form; `address` has no input and stays empty. */
  datatype OrderForm = OrderForm(name: string, email: string, address: string, phone: string, size: string)

  /** What `GET /shoes/{id}/` gave: the product, or a failure (non-2xx or a
      network error), which is only logged. */
  datatype FetchOutcome = Fetched(data: Product) | FetchFailed

  /** The "Add to Cart" record: the product spread out, with its backend id,
      the selection, the selected colour's variant id and the shown image. */
  function CartItemFor(p: Product, selectedColor: string, selectedSize: string, currentImage: string): (item: CartItem)
    ensures item.id == p.id && item.backendId == p.id
    ensures item.name == p.name && item.price == p.price && item.variants == p.variants
    ensures item.description == p.description
    ensures item.selectedColor == selectedColor && item.selectedSize == selectedSize && item.image == currentImage
    ensures item.variantId == VariantIdFor(p.variants, selectedColor)
  {
    CartItem(p.id, p.name, p.price, p.description, p.variants, p.id,
             selectedColor, selectedSize, VariantIdFor(p.variants, selectedColor), currentImage)
  }

  /** The "Buy Now" order: one line for one pair of the selection at the
      product's price. */
  function BuyNowOrder(p: Product, form: OrderForm, selectedColor: string, selectedSize: string): (r: OrderRequest)
    ensures |r.items| == 1 && r.total == p.price
    ensures r.items[0] == OrderLine(p.id, VariantIdFor(p.variants, selectedColor), selectedSize, 1)
    ensures r.clientName == form.name && r.email == form.email && r.phone == form.phone
  {
    OrderRequest(form.name, form.email, form.phone, p.price,
                 [OrderLine(p.id, VariantIdFor(p.variants, selectedColor), selectedSize, 1)])
  }

  /** The state of one product detail page. */
  class ProductDetails {
    var product: Option<Product>
    var selectedColor: string
    var currentImage: string
    var selectedSize: string
    var showOrderForm: bool
    var formData: OrderForm
    var isSubmitting: bool
    var submitError: string

    /** The selected size and the form's size never differ, and an error is
        never shown while a submission is in flight. */
    ghost predicate Valid()
      reads this
    {
      && selectedSize == formData.size
      && (isSubmitting ==> submitError == "")
    }

    /** The page before the product has arrived. */
    constructor ()
      ensures Valid()
      ensures product == None && selectedColor == "" && currentImage == "" && selectedSize == ""
      ensures formData == OrderForm("", "", "", "", "")
      ensures !showOrderForm && !isSubmitting && submitError == ""
    {
      product := None;
      selectedColor, currentImage, selectedSize := "", "", "";
      showOrderForm := false;
      formData := OrderForm("", "", "", "", "");
      isSubmitting, submitError := false, "";
    }

    /** The product fetch completing. A fetched product with variants selects
        its first variant's colour, image and default size; one without
        variants leaves the selection as it was; a failed fetch changes nothing. */
    method Load(outcome: FetchOutcome)
      requires Valid()
      modifies this`product, this`selectedColor, this`currentImage, this`selectedSize, this`formData
      ensures Valid()
      ensures outcome.FetchFailed? ==> product == old(product) && selectedColor == old(selectedColor)
      ensures outcome.FetchFailed? ==> currentImage == old(currentImage) && selectedSize == old(selectedSize)
      ensures outcome.FetchFailed? ==> formData == old(formData)
      ensures outcome.Fetched? ==> product == Some(outcome.data)
      ensures outcome.Fetched? && |outcome.data.variants| > 0 ==>
        selectedColor == outcome.data.variants[0].color
      ensures outcome.Fetched? && |outcome.data.variants| > 0 ==>
        currentImage == outcome.data.variants[0].image == Catalog.FirstImage(outcome.data)
      ensures outcome.Fetched? && |outcome.data.variants| > 0 ==>
        selectedSize == DefaultSize(outcome.data.variants[0].sizes)
      ensures outcome.Fetched? && |outcome.data.variants| > 0 ==>
        formData == old(formData).(size := selectedSize)
      ensures outcome.Fetched? && |outcome.data.variants| > 0 ==>
        DisplayedSizes(outcome.data.variants, selectedColor)[0] == selectedSize
      ensures outcome.Fetched? && |outcome.data.variants| == 0 ==>
        selectedColor == old(selectedColor) && currentImage == old(currentImage)
      ensures outcome.Fetched? && |outcome.data.variants| == 0 ==>
        selectedSize == old(selectedSize) && formData == old(formData)
      ensures showOrderForm == old(showOrderForm)
      ensures isSubmitting == old(isSubmitting) && submitError == old(submitError)
    {
      if outcome.Fetched? {
        product := Some(outcome.data);
        if |outcome.data.variants| > 0 {
          var first := outcome.data.variants[0];
          selectedColor := first.color;
          currentImage := first.image;
          var defaultSize := DefaultSize(first.sizes);
          selectedSize := defaultSize;
          formData := formData.(size := defaultSize);
          FirstVariantSizes(outcome.data.variants);
        }
      }
    }

    /** Shows a variant: its image, and its default size in both places the
        size is kept. */
    method ShowVariant(v: Variant)
      requires Valid()
      modifies this`currentImage, this`selectedSize, this`formData
      ensures Valid()
      ensures currentImage == v.image && selectedSize == DefaultSize(v.sizes)
      ensures formData == old(formData).(size := selectedSize)
    {
      currentImage := v.image;
      var size := DefaultSize(v.sizes);
      selectedSize := size;
      formData := formData.(size := size);
    }

    /** A colour button. The colour is always taken; the first variant of that
        colour, if any, supplies the image and resets the size. */
    method ChangeColor(color: string)
      requires Valid() && product.Some?
      modifies this
      ensures Valid()
      ensures selectedColor == color
      ensures product == old(product) && showOrderForm == old(showOrderForm)
      ensures isSubmitting == old(isSubmitting) && submitError == old(submitError)
      ensures FindColor(product.value.variants, color).None? ==>
        currentImage == old(currentImage) && selectedSize == old(selectedSize) && formData == old(formData)
      ensures FindColor(product.value.variants, color).Some? ==>
        var v := product.value.variants[FindColor(product.value.variants, color).value];
        && currentImage == v.image
        && selectedSize == DefaultSize(v.sizes)
        && formData == old(formData).(size := selectedSize)
        && DisplayedSizes(product.value.variants, selectedColor)[0] == selectedSize
    {
      selectedColor := color;
      match FindColor(product.value.variants, color)
      case None =>
      case Some(k) =>
        ShowVariant(product.value.variants[k]);
    }

    /** A size button: the size is taken as given, without checking it
        against the selected variant. */
    method ChangeSize(size: string)
      requires Valid()
      modifies this
      ensures Valid()
      ensures selectedSize == size && formData == old(formData).(size := size)
      ensures product == old(product) && selectedColor == old(selectedColor) && currentImage == old(currentImage)
      ensures showOrderForm == old(showOrderForm)
      ensures isSubmitting == old(isSubmitting) && submitError == old(submitError)
    {
      selectedSize := size;
      formData := formData.(size := size);
    }

    /** Typing in the name field. */
    method EditName(name: string)
      requires Valid()
      modifies this`formData
      ensures Valid()
      ensures formData == old(formData).(name := name)
    {
      formData := formData.(name := name);
    }

    /** Typing in the email field. */
    method EditEmail(email: string)
      requires Valid()
      modifies this`formData
      ensures Valid()
      ensures formData == old(formData).(email := email)
    {
      formData := formData.(email := email);
    }

    /** Typing in the phone field. */
    method EditPhone(phone: string)
      requires Valid()
      modifies this`formData
      ensures Valid()
      ensures formData == old(formData).(phone := phone)
    {
      formData := formData.(phone := phone);
    }

    /** The "Buy Now" button opens the order form. */
    method OpenOrderForm()
      requires Valid()
      modifies this`showOrderForm
      ensures Valid()
      ensures showOrderForm
    {
      showOrderForm := true;
    }

    /** The form's "Cancel" button closes it. */
    method CancelOrderForm()
      requires Valid()
      modifies this`showOrderForm
      ensures Valid()
      ensures !showOrderForm
    {
      showOrderForm := false;
    }

    /** The "Add to Cart" button: the record handed to the cart's owner. */
    method AddToCart() returns (item: CartItem)
      requires product.Some?
      ensures item == CartItemFor(product.value, selectedColor, selectedSize, currentImage)
      ensures item.backendId == product.value.id && item.image == currentImage
      ensures item.variantId == VariantIdFor(product.value.variants, selectedColor)
    {
      item := CartItemFor(product.value, selectedColor, selectedSize, currentImage);
    }

    /** Submitting the order form, up to the request: the flags enter the
        submitting state and the order that is posted is returned. */
    method BeginBuyNow() returns (order: OrderRequest)
      requires Valid() && product.Some?
      modifies this`isSubmitting, this`submitError
      ensures Valid()
      ensures isSubmitting && submitError == ""
      ensures order == BuyNowOrder(product.value, formData, selectedColor, selectedSize)
    {
      isSubmitting := true;
      submitError := "";
      order := BuyNowOrder(product.value, formData, selectedColor, selectedSize);
    }

    /** The order request completing: success closes the form, failure shows
        the retry message; either way the submission is over. */
    method FinishBuyNow(outcome: OrderOutcome)
      requires Valid()
      modifies this`isSubmitting, this`submitError, this`showOrderForm
      ensures Valid()
      ensures !isSubmitting
      ensures outcome.Accepted? ==> !showOrderForm && submitError == old(submitError)
      ensures outcome.Rejected? ==> showOrderForm == old(showOrderForm) && submitError == RetryMessage
    {
      isSubmitting := false;
      match outcome
      case Accepted(_) =>
        showOrderForm := false;
      case Rejected =>
        submitError := RetryMessage;
    }
  }
}
