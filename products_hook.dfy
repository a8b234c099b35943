/** The `useProducts` hook (src/features/products/useProducts.ts): the product list with
    loading and error state. `reload` is split at its `await`; every backend result is a
    parameter. */
module ProductsHook {
  import opened Wrappers

  /** `ProductDto` */
  datatype ProductDto = ProductDto(
    id: string,
    name: string,
    description: Option<string>,
    price: real,
    imageUrl: Option<string>,
    createdAt: Option<string>,
    updatedAt: Option<string>)

  /** The message a failed reload shows when the error has no `message`. */
  const DefaultError := "Nie udało się pobrać produktów"

  /** `e?.message ?? DefaultError` */
  function ErrorText(reason: Option<string>): (s: string)
    ensures reason.Some? ==> s == reason.value
    ensures reason.None? ==> s == DefaultError
  {
    reason.GetOr(DefaultError)
  }

  class Products {
    var products: seq<ProductDto>
    var loading: bool
    var error: Option<string>

    /** The hook's initial state: no products, loading, no error. */
    constructor()
      ensures products == [] && loading && error == None
    {
      products := [];
      loading := true;
      error := None;
    }

    /** `reload()` up to `await fetchProducts()`. */
    method BeginReload()
      modifies this
      ensures loading && error == None && products == old(products)
    {
      loading := true;
      error := None;
    }

    /** `reload()` after `fetchProducts()` settles. */
    method SettleReload(fetched: Outcome<seq<ProductDto>>)
      modifies this
      ensures !loading
      ensures fetched.Ok? ==> products == fetched.value && error == old(error)
      ensures fetched.Err? ==> products == old(products) && error == Some(ErrorText(fetched.reason))
    {
      match fetched {
        case Ok(data) =>
          products := data;
        case Err(reason) =>
          error := Some(ErrorText(reason));
      }
      loading := false;
    }

    /** `reload()`: it never rejects; a failure becomes the error text. */
    method Reload(fetched: Outcome<seq<ProductDto>>)
      modifies this
      ensures !loading
      ensures fetched.Ok? ==> products == fetched.value && error == None
      ensures fetched.Err? ==> products == old(products) && error == Some(ErrorText(fetched.reason))
    {
      BeginReload();
      SettleReload(fetched);
    }

    /** `add(payload)`: `createProduct`, then `reload` only if it resolved; a rejection
        propagates and the state is untouched. */
    method Add(created: Outcome<ProductDto>, fetched: Outcome<seq<ProductDto>>) returns (r: Outcome<()>)
      modifies this
      ensures created.Err? ==>
                r == Err(created.reason) &&
                products == old(products) && loading == old(loading) && error == old(error)
      ensures created.Ok? ==> r == Ok(()) && !loading
      ensures created.Ok? && fetched.Ok? ==> products == fetched.value && error == None
      ensures created.Ok? && fetched.Err? ==>
                products == old(products) && error == Some(ErrorText(fetched.reason))
    {
      if created.Err? {
        return Err(created.reason);
      }
      Reload(fetched);
      return Ok(());
    }

    /** `update(id, payload)`: `updateProduct`, then `reload` only if it resolved. */
    method Update(updated: Outcome<()>, fetched: Outcome<seq<ProductDto>>) returns (r: Outcome<()>)
      modifies this
      ensures updated.Err? ==>
                r == Err(updated.reason) &&
                products == old(products) && loading == old(loading) && error == old(error)
      ensures updated.Ok? ==> r == Ok(()) && !loading
      ensures updated.Ok? && fetched.Ok? ==> products == fetched.value && error == None
      ensures updated.Ok? && fetched.Err? ==>
                products == old(products) && error == Some(ErrorText(fetched.reason))
    {
      if updated.Err? {
        return Err(updated.reason);
      }
      Reload(fetched);
      return Ok(());
    }

    /** `remove(id)`: `deleteProduct`, then `reload` only if it resolved. */
    method Remove(deleted: Outcome<()>, fetched: Outcome<seq<ProductDto>>) returns (r: Outcome<()>)
      modifies this
      ensures deleted.Err? ==>
                r == Err(deleted.reason) &&
                products == old(products) && loading == old(loading) && error == old(error)
      ensures deleted.Ok? ==> r == Ok(()) && !loading
      ensures deleted.Ok? && fetched.Ok? ==> products == fetched.value && error == None
      ensures deleted.Ok? && fetched.Err? ==>
                products == old(products) && error == Some(ErrorText(fetched.reason))
    {
      if deleted.Err? {
        return Err(deleted.reason);
      }
      Reload(fetched);
      return Ok(());
    }
  }
}
