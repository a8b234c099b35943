/** The gallery item screen (src/screens/GalleryDetailsScreen.tsx): finding the item, the
    average and personal rating stars, committing a rating, and adding the item to the
    cart on the backend and then locally. Backend answers are parameters. */
module GalleryDetails {
  import opened Wrappers
  import opened HttpClient
  import CartApi
  import opened CartStore
  import opened GalleryStore
  import opened AverageStars
  import opened Auth

  /** `items.find(g => g.id === galleryId)`: `None` renders the not-found view. */
  function FindItem(items: seq<GalleryItemDto>, galleryId: string): (r: Option<GalleryItemDto>)
    ensures r.None? <==> forall k :: 0 <= k < |items| ==> items[k].id != galleryId
    ensures r.Some? ==> r.value in items && r.value.id == galleryId
    ensures r.Some? ==> r.value == items[FindIndex(items, galleryId).value]
  {
    match FindIndex(items, galleryId)
    case None => None
    case Some(i) => Some(items[i])
  }

  /** The average row: whole stars, an optional half star, and the empty rest. */
  datatype StarSplit = StarSplit(full: int, half: bool, empty: int)

  function SplitAverage(average: real): (s: StarSplit)
    ensures s.full == average.Floor
    ensures s.half <==> average - s.full as real >= 0.5
    ensures s.empty == 5 - s.full - (if s.half then 1 else 0)
  {
    var full := FullStars(average);
    var half := HasHalf(average);
    StarSplit(full, half, 5 - full - (if half then 1 else 0))
  }

  /** For an average between 0 and 5 the row holds exactly five stars, none of the counts
      negative, and it agrees with the animated stars: as many full fills as whole stars and
      a half fill exactly when the half star shows. */
  lemma SplitIsFiveStars(average: real)
    requires 0.0 <= average <= 5.0
    ensures var s := SplitAverage(average);
            && s.full >= 0 && s.empty >= 0
            && s.full + (if s.half then 1 else 0) + s.empty == 5
            && (forall i :: 0 <= i < 5 ==> (TargetFill(i, average) == 1.0 <==> i < s.full))
            && (s.half <==> exists i :: 0 <= i < 5 && TargetFill(i, average) == 0.5)
  {
    var s := SplitAverage(average);
    assert s.full == 5 ==> !s.half;
    if s.half {
      assert TargetFill(s.full, average) == 0.5;
    }
  }

  /** `previewRating ?? myRating ?? 0` */
  function MyStars(previewRating: Option<int>, myRating: Option<int>): (n: int)
    ensures previewRating.Some? ==> n == previewRating.value
    ensures previewRating.None? && myRating.Some? ==> n == myRating.value
    ensures previewRating.None? && myRating.None? ==> n == 0
  {
    previewRating.GetOr(myRating.GetOr(0))
  }

  /** Personal star `i` is highlighted. */
  predicate Highlighted(i: int, myStars: int) {
    i < myStars
  }

  /** With a count between 0 and 5, the five personal stars read as that many lit stars
      followed by unlit ones. */
  lemma HighlightedPrefix(myStars: int)
    requires 0 <= myStars <= 5
    ensures seq(5, i => Highlighted(i, myStars)) ==
              seq(myStars, _ => true) + seq(5 - myStars, _ => false)
  {
  }

  /** The rating buttons are disabled. */
  predicate RatingDisabled(isLoggedIn: bool, myRating: Option<int>) {
    !isLoggedIn || myRating.Some?
  }

  /** `commitRating`'s guard lets the call through. */
  predicate CanCommit(isLoggedIn: bool, myRating: Option<int>, user: Option<User>) {
    isLoggedIn && myRating.None? && user.Some?
  }

  /** A rating can only be committed from enabled buttons. */
  lemma CommitNeedsEnabledButtons(isLoggedIn: bool, myRating: Option<int>, user: Option<User>)
    ensures CanCommit(isLoggedIn, myRating, user) ==> !RatingDisabled(isLoggedIn, myRating)
    ensures RatingDisabled(isLoggedIn, myRating) ==> !CanCommit(isLoggedIn, myRating, user)
  {
  }

  /** What the ratings endpoint answers for an item. */
  datatype RatingsDto = RatingsDto(average: real, votes: int, myRating: Option<int>)

  /** The rating the screen posts. */
  datatype RatingRequest = RatingRequest(galleryId: string, userId: int, value: int)

  /** The stars animated after a successful rating: indices 0 to value - 1, in order. */
  method AnimatedStars(value: int) returns (stars: seq<int>)
    ensures |stars| == if value > 0 then value else 0
    ensures forall i :: 0 <= i < |stars| ==> stars[i] == i
  {
    stars := [];
    var i := 0;
    while i < value
      invariant 0 <= i && (value > 0 ==> i <= value) && (value <= 0 ==> i == 0) && |stars| == i
      invariant forall k :: 0 <= k < i ==> stars[k] == k
    {
      stars := stars + [i];
      i := i + 1;
    }
  }

  /** The cart product built from a gallery item: its title as the name and a fixed
      description; the image goes under a name the cart does not read. */
  function CartProduct(item: GalleryItemDto): (p: Product)
    ensures p.id == item.id && p.name == item.title && p.price == item.price
    ensures p.description == Some("Arcydzieło: " + item.title) && p.image.None?
  {
    Product(item.id, item.title, item.price, Some("Arcydzieło: " + item.title), None)
  }

  class GalleryDetailsScreen {
    const galleryId: string
    var average: real
    var votes: int
    var myRating: Option<int>
    var previewRating: Option<int>

    constructor(id: string)
      ensures galleryId == id && average == 0.0 && votes == 0
      ensures myRating.None? && previewRating.None?
    {
      galleryId := id;
      average := 0.0;
      votes := 0;
      myRating := None;
      previewRating := None;
    }

    /** `loadRatings()`: an answer overwrites the three rating fields; a failure leaves
        them. */
    method LoadRatings(res: Outcome<RatingsDto>)
      modifies this
      ensures previewRating == old(previewRating)
      ensures res.Ok? ==> average == res.value.average && votes == res.value.votes &&
                          myRating == res.value.myRating
      ensures res.Err? ==> average == old(average) && votes == old(votes) && myRating == old(myRating)
    {
      if res.Ok? {
        average := res.value.average;
        votes := res.value.votes;
        myRating := res.value.myRating;
      }
    }

    /** Pressing a personal star previews its value; releasing clears the preview. */
    method PressIn(i: int)
      modifies this
      ensures previewRating == Some(i + 1)
      ensures average == old(average) && votes == old(votes) && myRating == old(myRating)
    {
      previewRating := Some(i + 1);
    }

    method PressOut()
      modifies this
      ensures previewRating.None?
      ensures average == old(average) && votes == old(votes) && myRating == old(myRating)
    {
      previewRating := None;
    }

    /** `commitRating(value)`: nothing happens unless the guard passes. Then the rating is
        posted; on success it becomes the user's rating, the ratings are reloaded and the
        first `value` stars animate; if the post or that reload fails, the ratings are
        reloaded once more (`retried`). */
    method CommitRating(isLoggedIn: bool, user: Option<User>, value: int, created: Outcome<()>,
                        reloaded: Outcome<RatingsDto>, retried: Outcome<RatingsDto>)
      returns (request: Option<RatingRequest>, animated: seq<int>)
      modifies this
      ensures previewRating == old(previewRating)
      ensures request.None? <==> !CanCommit(isLoggedIn, old(myRating), user)
      ensures request.None? ==>
                average == old(average) && votes == old(votes) && myRating == old(myRating)
      ensures request.Some? ==> request.value == RatingRequest(galleryId, user.value.id, value)
      ensures request.Some? && created.Ok? && reloaded.Ok? ==>
                myRating == reloaded.value.myRating && average == reloaded.value.average &&
                votes == reloaded.value.votes &&
                |animated| == (if value > 0 then value else 0) &&
                (forall i :: 0 <= i < |animated| ==> animated[i] == i)
      ensures request.Some? && created.Ok? && reloaded.Err? && retried.Err? ==> myRating == Some(value)
      ensures request.Some? && created.Err? && retried.Err? ==> myRating == old(myRating)
      ensures request.Some? && (created.Err? || reloaded.Err?) && retried.Ok? ==>
                myRating == retried.value.myRating && average == retried.value.average &&
                votes == retried.value.votes
      ensures request.Some? && (created.Err? || reloaded.Err?) && retried.Err? ==>
                average == old(average) && votes == old(votes)
      ensures created.Err? || reloaded.Err? ==> animated == []
    {
      animated := [];
      if !(isLoggedIn && myRating.None? && user.Some?) {
        return None, animated;
      }
      request := Some(RatingRequest(galleryId, user.value.id, value));
      if created.Ok? {
        myRating := Some(value);
        if reloaded.Ok? {
          LoadRatings(reloaded);
          animated := AnimatedStars(value);
          return;
        }
      }
      LoadRatings(retried);
    }

    /** `handleAddToCart()`: a no-op when nobody is signed in; otherwise one unit is added
        on the backend and, only once that succeeds, the item is added to the local cart
        (which notifies its listeners) and the screen closes. */
    method HandleAddToCart(isLoggedIn: bool, item: GalleryItemDto, added: Outcome<()>, cart: Cart)
      returns (request: Option<RequestOptions>, closed: bool)
      requires cart.Valid()
      modifies cart, cart.bus
      ensures cart.Valid()
      ensures request.None? <==> !isLoggedIn
      ensures request.Some? ==> request.value == CartApi.AddItem(item.id, Some(1))
      ensures isLoggedIn && added.Ok? ==>
                closed && cart.lines == Added(old(cart.lines), CartProduct(item))
      ensures !isLoggedIn || added.Err? ==>
                !closed && cart.lines == old(cart.lines) && cart.bus.deliveries == old(cart.bus.deliveries)
    {
      if !isLoggedIn {
        return None, false;
      }
      request := Some(CartApi.AddItem(item.id, Some(1)));
      if added.Err? {
        return request, false;
      }
      cart.AddItem(CartProduct(item), Some("GALLERY"));
      closed := true;
    }
  }
}
