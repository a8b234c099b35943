/** The backend cart endpoints (src/api/cart/CartApi.ts): each call is the request
    options it hands to the HTTP client. Numbers in URLs are integers here. */
module CartApi {
  import opened Wrappers
  import opened Text
  import opened Json
  import opened HttpClient

  /** `CartItemDto`, a line of the backend cart. */
  datatype CartSource = Products | Gallery
  datatype CartItemDto = CartItemDto(
    cartItemId: string,
    id: string,
    name: string,
    price: real,
    quantity: int,
    source: CartSource,
    imageUrl: Option<string>)

  /** An optional `userId` is used only when it is truthy: present and not 0. */
  predicate HasUser(userId: Option<int>) {
    userId.Some? && userId.value != 0
  }

  const UserQuery := "?userId="

  /** `CartApi.getCart(userId?)`: GET /cart, for the given user when there is one. */
  function GetCart(userId: Option<int>): (o: RequestOptions)
    ensures o.verb == GET && o.body.None? && o.headers.None? && o.auth.None?
    ensures HasUser(userId) ==> o.url == "/cart" + UserQuery + IntToString(userId.value)
    ensures !HasUser(userId) ==> o.url == "/cart"
  {
    Plain(GET, if HasUser(userId) then "/cart" + UserQuery + IntToString(userId.value) else "/cart")
  }

  /** `CartApi.addItem({productId, quantity?})`: POST /cart/add with the id and the
      quantity, 1 when omitted. */
  function AddItem(productId: string, quantity: Option<int>): (o: RequestOptions)
    ensures o.verb == POST && o.url == "/cart/add" && o.body.Some?
    ensures o.body.value.JObj? && o.body.value.fields.Keys == {"productId", "quantity"}
    ensures o.body.value.fields["productId"] == JStr(productId)
    ensures quantity.Some? ==> o.body.value.fields["quantity"] == JNum(quantity.value as real)
    ensures quantity.None? ==> o.body.value.fields["quantity"] == JNum(1.0)
  {
    RequestOptions(POST, "/cart/add",
                   Some(JObj(map["productId" := JStr(productId),
                                 "quantity" := JNum(quantity.GetOr(1) as real)])),
                   None, None, None)
  }

  const QuantityPath := "/quantity?delta="

  /** `CartApi.changeQuantity(cartItemId, delta)`: PATCH /cart/{id}/quantity?delta=d. */
  function ChangeQuantity(cartItemId: string, delta: int): (o: RequestOptions)
    ensures o.verb == PATCH && o.body.None?
    ensures o.url == "/cart/" + cartItemId + QuantityPath + IntToString(delta)
  {
    Plain(PATCH, "/cart/" + cartItemId + QuantityPath + IntToString(delta))
  }

  /** `CartApi.removeItem(cartItemId)`: DELETE /cart/{id}. */
  function RemoveItem(cartItemId: string): (o: RequestOptions)
    ensures o.verb == DELETE && o.body.None? && o.url == "/cart/" + cartItemId
  {
    Plain(DELETE, "/cart/" + cartItemId)
  }

  /** `CartApi.clear(userId?)`: DELETE /cart/clear, for the given user when there is one. */
  function Clear(userId: Option<int>): (o: RequestOptions)
    ensures o.verb == DELETE && o.body.None?
    ensures HasUser(userId) ==> o.url == "/cart/clear" + UserQuery + IntToString(userId.value)
    ensures !HasUser(userId) ==> o.url == "/cart/clear"
  {
    Plain(DELETE, if HasUser(userId) then "/cart/clear" + UserQuery + IntToString(userId.value)
                  else "/cart/clear")
  }

  /** The user a query-carrying URL names: what follows the first `?userId=` after `path`. */
  function QueryUser(url: string, path: string): Option<int>
  {
    var prefix := path + UserQuery;
    if StartsWith(url, prefix) && |url| > |prefix| then
      var digits := url[|prefix|..];
      if (digits[0] == '-' && AllDigits(digits[1..])) || (digits[0] != '-' && AllDigits(digits))
      then Some(ParseInt(digits))
      else None
    else None
  }

  /** The cart a `getCart` or `clear` request targets reads back from its URL: the user it
      was built for, or nobody when the id is missing or 0. */
  lemma UserRoundTrip(userId: Option<int>)
    ensures HasUser(userId) ==> QueryUser(GetCart(userId).url, "/cart") == userId
    ensures HasUser(userId) ==> QueryUser(Clear(userId).url, "/cart/clear") == userId
    ensures !HasUser(userId) ==> QueryUser(GetCart(userId).url, "/cart").None?
    ensures !HasUser(userId) ==> QueryUser(Clear(userId).url, "/cart/clear").None?
  {
    if HasUser(userId) {
      var n := userId.value;
      ParseIntToString(n);
      var u1 := GetCart(userId).url;
      assert u1[|"/cart" + UserQuery|..] == IntToString(n);
      var u2 := Clear(userId).url;
      assert u2[|"/cart/clear" + UserQuery|..] == IntToString(n);
    }
  }

  /** Where the first `?` of a string is. */
  function FirstQuestionMark(s: string): (r: Option<nat>)
    ensures r.Some? ==> r.value < |s| && s[r.value] == '?'
    ensures r.Some? ==> forall k :: 0 <= k < r.value ==> s[k] != '?'
    ensures r.None? ==> forall k :: 0 <= k < |s| ==> s[k] != '?'
  {
    if s == [] then None
    else if s[0] == '?' then Some(0)
    else match FirstQuestionMark(s[1..])
      case None => None
      case Some(k) => Some(k + 1)
  }

  lemma {:induction false} FirstQuestionMarkAfter(p: string, q: string)
    requires forall k :: 0 <= k < |p| ==> p[k] != '?'
    ensures FirstQuestionMark(p + "?" + q) == Some(|p|)
  {
    if p != [] {
      assert (p + "?" + q)[1..] == p[1..] + "?" + q;
      FirstQuestionMarkAfter(p[1..], q);
    }
  }

  /** Cutting at the first `?` recovers both halves. */
  lemma SplitAtQuestionMark(h1: string, t1: string, h2: string, t2: string)
    requires forall k :: 0 <= k < |h1| ==> h1[k] != '?'
    requires forall k :: 0 <= k < |h2| ==> h2[k] != '?'
    requires h1 + "?" + t1 == h2 + "?" + t2
    ensures h1 == h2 && t1 == t2
  {
    FirstQuestionMarkAfter(h1, t1);
    FirstQuestionMarkAfter(h2, t2);
    var u := h1 + "?" + t1;
    assert h1 == u[..|h1|];
    assert t1 == u[|h1| + 1..];
  }

  lemma QuantityHead(id: string)
    requires forall k :: 0 <= k < |id| ==> id[k] != '?'
    ensures var h := "/cart/" + id + "/quantity";
            (forall k :: 0 <= k < |h| ==> h[k] != '?') && h[6..|h| - 9] == id
  {
    var h := "/cart/" + id + "/quantity";
    forall k | 0 <= k < |h| ensures h[k] != '?' {
      if 6 <= k < 6 + |id| {
        assert h[k] == id[k - 6];
      }
    }
  }

  /** A quantity change names exactly one line and one delta: as long as cart line ids hold
      no `?`, two requests with the same URL change the same line by the same amount. */
  lemma ChangeQuantityInjective(id1: string, delta1: int, id2: string, delta2: int)
    requires forall k :: 0 <= k < |id1| ==> id1[k] != '?'
    requires forall k :: 0 <= k < |id2| ==> id2[k] != '?'
    requires ChangeQuantity(id1, delta1).url == ChangeQuantity(id2, delta2).url
    ensures id1 == id2 && delta1 == delta2
  {
    QuantityUrlParts(id1, delta1);
    QuantityUrlParts(id2, delta2);
    QuantityHead(id1);
    QuantityHead(id2);
    var tail1, tail2 := "delta=" + IntToString(delta1), "delta=" + IntToString(delta2);
    SplitAtQuestionMark("/cart/" + id1 + "/quantity", tail1, "/cart/" + id2 + "/quantity", tail2);
    DeltaTail(delta1);
    DeltaTail(delta2);
    IntToStringInjective(delta1, delta2);
  }

  lemma QuantityUrlParts(id: string, delta: int)
    ensures ChangeQuantity(id, delta).url ==
            ("/cart/" + id + "/quantity") + "?" + ("delta=" + IntToString(delta))
  {
  }

  lemma DeltaTail(delta: int)
    ensures IntToString(delta) == ("delta=" + IntToString(delta))[6..]
  {
  }
}
