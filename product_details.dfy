/** The product detail screen (src/screens/ProductDetailsScreen.tsx): relative comment
    dates, the comment list with its composer, and adding the product to the cart on the
    backend and then locally. Clocks and network answers are parameters. */
module ProductDetails {
  import opened Wrappers
  import opened Text
  import opened HttpClient
  import CartApi
  import opened CartStore
  import opened ProductsHook
  import opened Auth
  import opened Durations

  /** A relative date: a fixed or counted phrase, or the date itself in the Polish locale
      format. */
  datatype DateLabel = Phrase(text: string) | LocaleDate(ms: int)

  /** `formatRelativeDate(dateString)` for a comment written at `dateMs`, read at `nowMs`,
      stated directly on the elapsed milliseconds. */
  function FormatRelativeDate(nowMs: int, dateMs: int): (shown: DateLabel)
    ensures var d := nowMs - dateMs;
            && (d < MinuteMs <==> shown == Phrase("przed chwilą"))
            && (MinuteMs <= d < HourMs ==> shown == Phrase(IntToString(d / MinuteMs) + " min temu"))
            && (HourMs <= d < DayMs ==> shown == Phrase(IntToString(d / HourMs) + " godz. temu"))
            && (DayMs <= d < 2 * DayMs <==> shown == Phrase("wczoraj"))
            && (2 * DayMs <= d < 7 * DayMs ==> shown == Phrase(IntToString(d / DayMs) + " dni temu"))
            && (7 * DayMs <= d <==> shown.LocaleDate?)
            && (shown.LocaleDate? ==> shown.ms == dateMs)
  {
    var diffMs := nowMs - dateMs;
    var diffSec := diffMs / 1000;
    var diffMin := diffSec / 60;
    var diffHour := diffMin / 60;
    var diffDay := diffHour / 24;
    FlooredSteps(diffMs);
    if diffSec < 60 then Phrase("przed chwilą")
    else if diffMin < 60 then
      var text := IntToString(diffMin) + " min temu";
      assert text[|text| - 1] == 'u';
      Phrase(text)
    else if diffHour < 24 then
      var text := IntToString(diffHour) + " godz. temu";
      assert text[|text| - 1] == 'u';
      Phrase(text)
    else if diffDay == 1 then Phrase("wczoraj")
    else if diffDay < 7 then
      var text := IntToString(diffDay) + " dni temu";
      assert text[|text| - 1] == 'u';
      Phrase(text)
    else LocaleDate(dateMs)
  }

  /** The counted phrases count from 1 to 59 minutes, 1 to 23 hours, 2 to 6 days. */
  lemma CountedPhrasesInRange(nowMs: int, dateMs: int)
    ensures var d := nowMs - dateMs;
            && (MinuteMs <= d < HourMs ==> 1 <= d / MinuteMs <= 59)
            && (HourMs <= d < DayMs ==> 1 <= d / HourMs <= 23)
            && (2 * DayMs <= d < 7 * DayMs ==> 2 <= d / DayMs <= 6)
  {
  }

  /** `CommentDto` */
  datatype CommentDto = CommentDto(id: string, author: string, text: string, createdAt: string)

  /** The body the screen posts for a new comment. */
  datatype CommentRequest = CommentRequest(productId: string, userId: int, text: string)

  /** How the add-to-cart press ends. */
  datatype AddToCartOutcome = AddedAndBack | AddFailed

  /** The cart product built from the route's product: its image is passed under a name
      the cart does not read. */
  function CartProduct(dto: ProductDto): (p: Product)
    ensures p.id == dto.id && p.name == dto.name && p.price == dto.price
    ensures p.description == dto.description && p.image.None?
  {
    Product(dto.id, dto.name, dto.price, dto.description, None)
  }

  class ProductDetailsScreen {
    const product: ProductDto
    var comments: seq<CommentDto>
    var commentText: string
    var loadingComments: bool

    constructor(dto: ProductDto)
      ensures product == dto && comments == [] && commentText == "" && loadingComments
    {
      product := dto;
      comments := [];
      commentText := "";
      loadingComments := true;
    }

    /** Typing in the composer. */
    method SetCommentText(text: string)
      modifies this
      ensures commentText == text && comments == old(comments)
      ensures loadingComments == old(loadingComments)
    {
      commentText := text;
    }

    /** The comments effect: a fetched list replaces the comments, a failure keeps them
        (and shows a toast), and the spinner stops. */
    method LoadComments(fetched: Outcome<seq<CommentDto>>)
      modifies this
      ensures !loadingComments && commentText == old(commentText)
      ensures fetched.Ok? ==> comments == fetched.value
      ensures fetched.Err? ==> comments == old(comments)
    {
      loadingComments := true;
      if fetched.Ok? {
        comments := fetched.value;
      }
      loadingComments := false;
    }

    /** `handleAddComment()`: nothing is sent for blank text or without a user; otherwise
        the trimmed text is posted, and the created comment goes on top and the composer
        is cleared once the post succeeds. */
    method HandleAddComment(user: Option<User>, created: Outcome<CommentDto>)
      returns (request: Option<CommentRequest>)
      modifies this
      ensures loadingComments == old(loadingComments)
      ensures request.None? <==> Trim(old(commentText)) == "" || user.None?
      ensures request.Some? ==>
                request.value == CommentRequest(product.id, user.value.id, Trim(old(commentText)))
      ensures request.Some? && created.Ok? ==>
                comments == [created.value] + old(comments) && commentText == ""
      ensures request.None? || created.Err? ==>
                comments == old(comments) && commentText == old(commentText)
    {
      var trimmed := Trim(commentText);
      if trimmed == "" || user.None? {
        return None;
      }
      request := Some(CommentRequest(product.id, user.value.id, trimmed));
      if created.Ok? {
        comments := [created.value] + comments;
        commentText := "";
      }
    }

    /** `handleAddToCart()`: the backend add of one unit goes first; only when it succeeds
        is the product added to the local cart (which notifies its listeners) and the
        screen closed. */
    method HandleAddToCart(added: Outcome<()>, cart: Cart)
      returns (request: RequestOptions, outcome: AddToCartOutcome)
      requires cart.Valid()
      modifies cart, cart.bus
      ensures cart.Valid()
      ensures request == CartApi.AddItem(product.id, Some(1))
      ensures added.Ok? ==> outcome == AddedAndBack && cart.lines == Added(old(cart.lines), CartProduct(product))
      ensures added.Ok? ==> cart.ItemsCount() == old(cart.ItemsCount()) + 1
      ensures added.Err? ==> outcome == AddFailed && cart.lines == old(cart.lines)
      ensures added.Err? ==> cart.bus.deliveries == old(cart.bus.deliveries)
    {
      request := CartApi.AddItem(product.id, Some(1));
      if added.Err? {
        return request, AddFailed;
      }
      cart.AddItem(CartProduct(product), Some("PRODUCTS"));
      outcome := AddedAndBack;
    }
  }
}
