/** The MobX gallery store (src/api/gallery/store/galleryStore.ts): backend gallery items
    with loading and error flags. Each async method is split at its `await`: the network
    result is a parameter, and `loadGallery` is its synchronous start followed by its
    settlement. */
module GalleryStore {
  import opened Wrappers
  import opened Seqs

  /** `GalleryItemDto` */
  datatype GalleryItemDto = GalleryItemDto(
    id: string,
    title: string,
    artist: string,
    price: real,
    imageUrl: string,
    createdAt: Option<string>)

  /** The message a failed load leaves. */
  const LoadError := "Nie udało się pobrać galerii"

  /** `items.findIndex(x => x.id === id)`, with -1 as `None`. */
  function FindIndex(items: seq<GalleryItemDto>, id: string): (r: Option<nat>)
    ensures r.Some? ==> r.value < |items| && items[r.value].id == id
    ensures r.Some? ==> forall k :: 0 <= k < r.value ==> items[k].id != id
    ensures r.None? ==> forall k :: 0 <= k < |items| ==> items[k].id != id
  {
    if items == [] then None
    else if items[0].id == id then Some(0)
    else match FindIndex(items[1..], id)
      case None => None
      case Some(k) => Some(k + 1)
  }

  function Other(id: string): GalleryItemDto -> bool {
    (x: GalleryItemDto) => x.id != id
  }

  /** The items after `updateGallery(id)` has received the server's copy `item`: the first
      item with the id is replaced, and nothing changes when there is none. */
  function Updated(items: seq<GalleryItemDto>, id: string, item: GalleryItemDto): seq<GalleryItemDto> {
    match FindIndex(items, id)
    case None => items
    case Some(i) => items[i := item]
  }

  /** `FindIndex` stops at the first match. */
  lemma {:induction false} FindIndexAt(items: seq<GalleryItemDto>, id: string, i: nat)
    requires i < |items| && items[i].id == id
    requires forall k :: 0 <= k < i ==> items[k].id != id
    ensures FindIndex(items, id) == Some(i)
  {
    if i > 0 {
      FindIndexAt(items[1..], id, i - 1);
    }
  }

  /** When the server keeps the id, a second update of the same id overwrites the first:
      the item replaced stays the first with that id, so no later duplicate is reached. */
  lemma UpdateOverwrites(items: seq<GalleryItemDto>, id: string, first: GalleryItemDto,
                         second: GalleryItemDto)
    requires first.id == id
    ensures Updated(Updated(items, id, first), id, second) == Updated(items, id, second)
  {
    match FindIndex(items, id)
    case None =>
    case Some(i) =>
      var once := items[i := first];
      FindIndexAt(once, id, i);
      assert once[i := second] == items[i := second];
  }

  class GalleryStore {
    var items: seq<GalleryItemDto>
    var isLoading: bool
    var error: Option<string>

    constructor()
      ensures items == [] && !isLoading && error == None
    {
      items := [];
      isLoading := false;
      error := None;
    }

    /** The part of `loadGallery()` before its `await`. */
    method BeginLoad()
      modifies this
      ensures isLoading && error == None && items == old(items)
    {
      isLoading := true;
      error := None;
    }

    /** The part of `loadGallery()` after `GalleryApi.getAll()` settles: the fetched list
        replaces the items wholesale, a failure keeps them and sets the fixed message, and
        the loading flag drops either way. */
    method SettleLoad(fetched: Outcome<seq<GalleryItemDto>>)
      modifies this
      ensures !isLoading
      ensures fetched.Ok? ==> items == fetched.value && error == old(error)
      ensures fetched.Err? ==> items == old(items) && error == Some(LoadError)
    {
      match fetched {
        case Ok(data) =>
          items := data;
        case Err(_) =>
          error := Some(LoadError);
      }
      isLoading := false;
    }

    /** `loadGallery()` as one call. */
    method LoadGallery(fetched: Outcome<seq<GalleryItemDto>>)
      modifies this
      ensures !isLoading
      ensures fetched.Ok? ==> items == fetched.value && error == None
      ensures fetched.Err? ==> items == old(items) && error == Some(LoadError)
    {
      BeginLoad();
      SettleLoad(fetched);
    }

    /** `addGallery(payload)`: `items.unshift(created)` once `GalleryApi.create` resolves; a
        rejection propagates and leaves the items alone. */
    method AddGallery(created: Outcome<GalleryItemDto>) returns (r: Outcome<()>)
      modifies this
      ensures isLoading == old(isLoading) && error == old(error)
      ensures created.Ok? ==> r == Ok(()) && items == [created.value] + old(items)
      ensures created.Err? ==> r == Err(created.reason) && items == old(items)
    {
      match created {
        case Err(reason) =>
          return Err(reason);
        case Ok(item) =>
          items := [item] + items;
          return Ok(());
      }
    }

    /** `updateGallery(id, payload)`: once `GalleryApi.update` resolves, the first item with
        the id is replaced in place by the server's version; no match changes nothing. */
    method UpdateGallery(id: string, updated: Outcome<GalleryItemDto>) returns (r: Outcome<()>)
      modifies this
      ensures isLoading == old(isLoading) && error == old(error)
      ensures updated.Err? ==> r == Err(updated.reason) && items == old(items)
      ensures updated.Ok? ==> r == Ok(())
      ensures updated.Ok? && FindIndex(old(items), id).Some? ==>
                items == old(items)[FindIndex(old(items), id).value := updated.value]
      ensures updated.Ok? && FindIndex(old(items), id).None? ==> items == old(items)
      ensures updated.Ok? ==> items == Updated(old(items), id, updated.value)
    {
      match updated {
        case Err(reason) =>
          return Err(reason);
        case Ok(item) =>
          var index := FindIndex(items, id);
          if index.Some? {
            items := items[index.value := item];
          }
          return Ok(());
      }
    }

    /** `removeGallery(id)`: once `GalleryApi.delete` resolves, every item with the id is
        filtered out. */
    method RemoveGallery(id: string, deleted: Outcome<()>) returns (r: Outcome<()>)
      modifies this
      ensures isLoading == old(isLoading) && error == old(error)
      ensures deleted.Err? ==> r == Err(deleted.reason) && items == old(items)
      ensures deleted.Ok? ==> r == Ok(()) && items == Filter(old(items), Other(id))
      ensures deleted.Ok? ==> forall i :: 0 <= i < |items| ==> items[i].id != id
    {
      match deleted {
        case Err(reason) =>
          return Err(reason);
        case Ok(_) =>
          items := Filter(items, Other(id));
          forall i | 0 <= i < |items| ensures items[i].id != id {
            assert Other(id)(items[i]);
          }
          return Ok(());
      }
    }
  }
}
