/** The local gallery list (src/features/gallery/store/galleryStore.ts): starts as two mock
    artworks; add prepends, update replaces by id, remove filters by id; each notifies. */
module LocalGallery {
  import opened Seqs
  import opened Listeners

  datatype GalleryItem = GalleryItem(id: string, title: string, author: string, image: string, price: real)

  /** `mockGallery` */
  const MockGallery: seq<GalleryItem> := [
    GalleryItem("1", "Akwarela Ultramarine Blue – Ambitny Kobalt", "Akademia Farb Wodnych",
                "https://picsum.photos/600/400?1", 420.0),
    GalleryItem("2", "Akwarela Burnt Sienna – Kontrolowany Chaos", "Akademia Farb Wodnych",
                "https://picsum.photos/600/400?2", 380.0)
  ]

  /** `gallery.map(g => g.id === item.id ? item : g)` */
  function Replaced(gallery: seq<GalleryItem>, item: GalleryItem): seq<GalleryItem> {
    seq(|gallery|, i requires 0 <= i < |gallery| => if gallery[i].id == item.id then item else gallery[i])
  }

  function Other(id: string): GalleryItem -> bool {
    (g: GalleryItem) => g.id != id
  }

  /** Update: the same length; every item with the id becomes the new item; every other
      item stays where it was. */
  lemma ReplacedShape(gallery: seq<GalleryItem>, item: GalleryItem)
    ensures |Replaced(gallery, item)| == |gallery|
    ensures forall i :: 0 <= i < |gallery| && gallery[i].id == item.id ==> Replaced(gallery, item)[i] == item
    ensures forall i :: 0 <= i < |gallery| && gallery[i].id != item.id ==> Replaced(gallery, item)[i] == gallery[i]
    ensures (forall i :: 0 <= i < |gallery| ==> gallery[i].id != item.id) ==> Replaced(gallery, item) == gallery
  {
  }

  /** Remove: no item with the id is left, every item with another id is kept, and an item
      before another stays before it. */
  lemma {:induction false} RemovedShape(gallery: seq<GalleryItem>, id: string)
    ensures var r := Filter(gallery, Other(id));
            && (forall i :: 0 <= i < |r| ==> r[i].id != id)
            && (forall g :: g in gallery && g.id != id ==> g in r)
            && (forall k :: 0 <= k <= |gallery| ==>
                  r == Filter(gallery[..k], Other(id)) + Filter(gallery[k..], Other(id)))
  {
    var r := Filter(gallery, Other(id));
    forall i | 0 <= i < |r| ensures r[i].id != id {
      assert Other(id)(r[i]);
    }
    FilterMembers(gallery, Other(id));
    forall g | g in gallery && g.id != id ensures g in r {
      assert Other(id)(g);
    }
    forall k | 0 <= k <= |gallery|
      ensures r == Filter(gallery[..k], Other(id)) + Filter(gallery[k..], Other(id))
    {
      assert gallery == gallery[..k] + gallery[k..];
      FilterAppend(gallery[..k], gallery[k..], Other(id));
    }
  }

  class Gallery {
    var gallery: seq<GalleryItem>
    const bus: Bus<seq<GalleryItem>>

    /** `let gallery = [...mockGallery]` */
    constructor()
      ensures gallery == MockGallery
      ensures fresh(bus) && bus.listeners == {} && bus.deliveries == []
    {
      gallery := MockGallery;
      bus := new Bus();
    }

    /** `getGallery()` */
    function Items(): (g: seq<GalleryItem>)
      reads this
      ensures g == gallery
    {
      gallery
    }

    /** `addGallery(item)`: the item goes first, the rest follow in order. */
    method Add(item: GalleryItem)
      modifies this, bus
      ensures gallery == [item] + old(gallery)
      ensures bus.listeners == old(bus.listeners)
      ensures bus.deliveries == old(bus.deliveries) + [Delivery(bus.listeners, gallery)]
    {
      gallery := [item] + gallery;
      bus.Emit(gallery);
    }

    /** `updateGallery(item)` */
    method Update(item: GalleryItem)
      modifies this, bus
      ensures gallery == Replaced(old(gallery), item)
      ensures |gallery| == |old(gallery)|
      ensures bus.listeners == old(bus.listeners)
      ensures bus.deliveries == old(bus.deliveries) + [Delivery(bus.listeners, gallery)]
    {
      gallery := Replaced(gallery, item);
      bus.Emit(gallery);
    }

    /** `removeGallery(id)` */
    method Remove(id: string)
      modifies this, bus
      ensures gallery == Filter(old(gallery), Other(id))
      ensures forall i :: 0 <= i < |gallery| ==> gallery[i].id != id
      ensures bus.listeners == old(bus.listeners)
      ensures bus.deliveries == old(bus.deliveries) + [Delivery(bus.listeners, gallery)]
    {
      RemovedShape(gallery, id);
      gallery := Filter(gallery, Other(id));
      bus.Emit(gallery);
    }
  }
}
