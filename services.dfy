/**
 * The service catalog store: the per-category grouping, the flattening of a
 * fetched category tree into the store's lists, the client-side catalog
 * shaping (active services only, no empty categories, images in display
 * order), the insert-or-update dispatch and the cache merge of a single
 * service. Fetched rows and outcomes are parameters; an error is its message.
 */
module Services {
  import opened Wrappers
  import opened Js
  import opened Lists
  import opened Sorting

  // ---------------------------------------------------------------- rows

  /** The fields of a `service_images` row the shaping reads. */
  datatype ServiceImage = ServiceImage(id: string, image_url: string, display_order: Option<int>)

  /** A `services` row with its embedded images. */
  datatype Service = Service(
    id: string,
    name: string,
    category_id: Option<string>,
    is_active: Option<bool>,
    base_price: int,
    duration_minutes: int,
    service_images: seq<ServiceImage>)

  /** A `service_categories` row with its embedded services. */
  datatype Category = Category(id: string, name: string, services: seq<Service>)

  function ServicesOf(c: Category): seq<Service> {
    c.services
  }

  function WithId(id: string): Service -> bool {
    (s: Service) => s.id == id
  }

  function InCategory(id: string): Service -> bool {
    (s: Service) => s.category_id == Some(id)
  }

  // ---------------------------------------------------------------- grouping

  /** `categorizedServices`: every category paired with its services, in list order. */
  function Categorized(categories: seq<Category>, services: seq<Service>): (r: seq<Category>)
    ensures |r| == |categories|
    ensures forall i :: 0 <= i < |r| ==> r[i].id == categories[i].id && r[i].name == categories[i].name
  {
    Map(categories, (c: Category) => c.(services := Filter(services, InCategory(c.id))))
  }

  /** Every category's entry holds exactly the services filed under its id. */
  lemma CategorizedAllMembers(categories: seq<Category>, services: seq<Service>)
    ensures forall i, s :: 0 <= i < |categories| ==>
      (s in Categorized(categories, services)[i].services <==> s in services && s.category_id == Some(categories[i].id))
  {
    forall i, s | 0 <= i < |categories|
      ensures s in Categorized(categories, services)[i].services <==> s in services && s.category_id == Some(categories[i].id)
    {
      CategorizedMembers(categories, services, i, s);
    }
  }

  /** A category's entry holds exactly the services filed under its id. */
  lemma CategorizedMembers(categories: seq<Category>, services: seq<Service>, i: nat, s: Service)
    requires i < |categories|
    ensures s in Categorized(categories, services)[i].services
      <==> s in services && s.category_id == Some(categories[i].id)
  {
    FilterMembers(services, InCategory(categories[i].id), s);
  }

  /** The entry of a category keeps its services in the order of the service list. */
  lemma CategorizedAppend(categories: seq<Category>, a: seq<Service>, b: seq<Service>, i: nat)
    requires i < |categories|
    ensures Categorized(categories, a + b)[i].services
      == Categorized(categories, a)[i].services + Categorized(categories, b)[i].services
  {
    FilterAppend(a, b, InCategory(categories[i].id));
  }

  /** A service whose category is not in the list appears in no entry. */
  lemma UnfiledServiceHidden(categories: seq<Category>, services: seq<Service>, s: Service)
    requires forall i :: 0 <= i < |categories| ==> s.category_id != Some(categories[i].id)
    ensures forall i :: 0 <= i < |categories| ==> s !in Categorized(categories, services)[i].services
  {
    forall i | 0 <= i < |categories| {
      CategorizedMembers(categories, services, i, s);
    }
  }

  // ---------------------------------------------------------------- fetch flattening

  function Emptied(c: Category): Category {
    c.(services := [])
  }

  /** Every embedded service sits under the category whose id it names, and category ids are distinct. */
  predicate WellFiled(data: seq<Category>) {
    && (forall i, j :: 0 <= i < j < |data| ==> data[i].id != data[j].id)
    && (forall i, k :: 0 <= i < |data| && 0 <= k < |data[i].services| ==> data[i].services[k].category_id == Some(data[i].id))
  }

  /**
   * After `fetchServices` has split the tree into the flat service list and
   * the emptied categories, grouping them again rebuilds the fetched tree.
   */
  lemma FetchedServicesRegroup(data: seq<Category>)
    requires WellFiled(data)
    ensures Categorized(Map(data, Emptied), FlatMap(data, ServicesOf)) == data
  {
    var r := Categorized(Map(data, Emptied), FlatMap(data, ServicesOf));
    forall i | 0 <= i < |data|
      ensures r[i] == data[i]
    {
      FilterFlatMapOne(data, ServicesOf, InCategory(data[i].id), i);
    }
  }

  // ---------------------------------------------------------------- catalog shaping

  predicate IsActiveService(s: Service) {
    s.is_active == Some(true)
  }

  /** `display_order || 0` ascending: the comparator `(a.display_order || 0) - (b.display_order || 0)`. */
  predicate ImageLe(a: ServiceImage, b: ServiceImage) {
    OrZero(a.display_order) <= OrZero(b.display_order)
  }

  lemma ImageOrderIsPreorder()
    ensures TotalPreorder(ImageLe)
  {
  }

  /** The images stably sorted by display order, a missing order counting as 0. */
  function SortImages(images: seq<ServiceImage>): (r: seq<ServiceImage>)
    ensures SortedBy(r, ImageLe)
    ensures multiset(r) == multiset(images)
  {
    ImageOrderIsPreorder();
    SortBy(images, ImageLe)
  }

  /** Images with equal display order keep their fetched order. */
  lemma SortImagesStable(images: seq<ServiceImage>, p: ServiceImage)
    ensures EquivalentTo(SortImages(images), p, ImageLe) == EquivalentTo(images, p, ImageLe)
  {
    ImageOrderIsPreorder();
    SortStable(images, p, ImageLe);
  }

  function KeepActive(c: Category): Category {
    c.(services := Filter(c.services, IsActiveService))
  }

  predicate HasServices(c: Category) {
    |c.services| > 0
  }

  function SortServiceImages(s: Service): Service {
    s.(service_images := SortImages(s.service_images))
  }

  function SortCategoryImages(c: Category): Category {
    c.(services := Map(c.services, SortServiceImages))
  }

  /** The query of `fetchServicesWithImages` after the fetch: filter, drop empty, sort images. */
  function ServicesWithImages(data: seq<Category>): (r: seq<Category>)
    ensures |r| <= |data|
  {
    Map(Filter(Map(data, KeepActive), HasServices), SortCategoryImages)
  }

  predicate HasActiveService(c: Category) {
    Any(c.services, IsActiveService)
  }

  /** One category as the catalog shows it: its active services, each with sorted images. */
  function Shaped(c: Category): Category {
    SortCategoryImages(KeepActive(c))
  }

  lemma ActiveIffNonEmpty(c: Category)
    ensures HasServices(KeepActive(c)) == HasActiveService(c)
  {
    var kept := Filter(c.services, IsActiveService);
    if HasActiveService(c) {
      var k :| 0 <= k < |c.services| && IsActiveService(c.services[k]);
      FilterMembers(c.services, IsActiveService, c.services[k]);
    }
    if |kept| > 0 {
      FilterMembers(c.services, IsActiveService, kept[0]);
      var k :| 0 <= k < |c.services| && c.services[k] == kept[0];
    }
  }

  /**
   * The shaped catalog is exactly the categories that have an active service,
   * in fetched order, each shaped.
   */
  lemma ServicesWithImagesSpec(data: seq<Category>)
    ensures ServicesWithImages(data) == Map(Filter(data, HasActiveService), Shaped)
  {
    forall c: Category
      ensures HasActiveService(c) == HasServices(KeepActive(c))
    {
      ActiveIffNonEmpty(c);
    }
    FilterMap(data, KeepActive, HasServices, HasActiveService);
    MapMap(Filter(data, HasActiveService), KeepActive, SortCategoryImages, Shaped);
  }

  /**
   * Every category the catalog shows has at least one service, every service
   * shown is active, and its images are in display order.
   */
  lemma ServicesWithImagesShape(data: seq<Category>)
    ensures var r := ServicesWithImages(data);
      && (forall k :: 0 <= k < |r| ==> |r[k].services| > 0)
      && (forall k, j :: 0 <= k < |r| && 0 <= j < |r[k].services| ==>
            IsActiveService(r[k].services[j]) && SortedBy(r[k].services[j].service_images, ImageLe))
  {
    ServicesWithImagesSpec(data);
    var kept := Filter(data, HasActiveService);
    var r := Map(kept, Shaped);
    forall k | 0 <= k < |r|
      ensures |r[k].services| > 0 && forall j :: 0 <= j < |r[k].services| ==> ShownService(r[k].services[j])
    {
      ShapedCategory(kept[k]);
    }
  }

  ghost predicate ShownService(s: Service) {
    IsActiveService(s) && SortedBy(s.service_images, ImageLe)
  }

  /** A shaped category shows only active services with sorted images, and one if it has any. */
  lemma ShapedCategory(c: Category)
    ensures HasActiveService(c) ==> |Shaped(c).services| > 0
    ensures forall j :: 0 <= j < |Shaped(c).services| ==> ShownService(Shaped(c).services[j])
  {
    ActiveIffNonEmpty(c);
  }

  /** `fetchServiceDetailById`: the fetched service with its images sorted; errors are rethrown. */
  function ServiceDetail(response: Result<Service>): (r: Result<Service>)
    ensures r.Err? <==> response.Err?
    ensures r.Err? ==> r == response
    ensures r.Ok? ==>
      && r.value == response.value.(service_images := r.value.service_images)
      && SortedBy(r.value.service_images, ImageLe)
      && multiset(r.value.service_images) == multiset(response.value.service_images)
  {
    match response
    case Ok(s) => Ok(SortServiceImages(s))
    case Err(e) => Err(e)
  }

  // ---------------------------------------------------------------- writes

  /** The service fields a create or update form submits. */
  datatype ServicePayload = ServicePayload(
    id: Option<string>,
    name: string,
    category_id: Option<string>,
    base_price: int,
    duration_minutes: int,
    is_active: Option<bool>)

  datatype ServiceWrite = UpdateService(payload: ServicePayload) | CreateService(payload: ServicePayload)

  /** `createOrUpdateService`: an update when the payload has an id, an insert otherwise. */
  function CreateOrUpdateService(d: ServicePayload): (r: ServiceWrite)
    ensures r.UpdateService? <==> Truthy(d.id)
    ensures r.payload == d
  {
    if Truthy(d.id) then UpdateService(d) else CreateService(d)
  }

  /** A `service_products` row as submitted. */
  datatype ServiceProductPayload = ServiceProductPayload(
    id: Option<string>,
    service_id: Option<string>,
    product_id: Option<string>,
    typical_quantity: Option<int>,
    is_required: Option<bool>)

  datatype ServiceProductsWrite =
    | UpsertServiceProducts(rows: seq<ServiceProductPayload>)
    | InsertServiceProducts(rows: seq<ServiceProductPayload>)

  function HasRowId(sp: ServiceProductPayload): bool {
    Truthy(sp.id)
  }

  /** `createOrUpdateServiceProducts`: all rows are upserted as soon as one has an id. */
  function CreateOrUpdateServiceProducts(rows: seq<ServiceProductPayload>): (r: ServiceProductsWrite)
    ensures r.UpsertServiceProducts? <==> exists k :: 0 <= k < |rows| && Truthy(rows[k].id)
    ensures r.rows == rows
  {
    if Any(rows, HasRowId) then UpsertServiceProducts(rows) else InsertServiceProducts(rows)
  }

  // ---------------------------------------------------------------- single-service cache

  /**
   * The list after a successful `getServiceById(id)`: an empty list receives
   * the row; otherwise every entry with that id is replaced by it.
   */
  function MergeFetched(services: seq<Service>, id: string, d: Service): (r: seq<Service>)
    ensures |services| == 0 ==> r == [d]
    ensures |services| > 0 ==> |r| == |services|
    ensures forall i :: 0 <= i < |services| ==> r[i] == (if services[i].id == id then d else services[i])
  {
    if |services| == 0 then [d] else ReplaceWhere(services, WithId(id), d)
  }

  /** A fetched row reaches the cache only when the list was empty or already held its id. */
  lemma MergeFetchedCaches(services: seq<Service>, d: Service)
    requires |services| == 0 || Any(services, WithId(d.id))
    ensures FindFirst(MergeFetched(services, d.id, d), WithId(d.id)) == Some(d)
  {
    if |services| > 0 {
      FindAfterReplace(services, WithId(d.id), d);
    }
  }

  /** A row whose id is not in a non-empty list is not added to it. */
  lemma MergeFetchedUnknownId(services: seq<Service>, id: string, d: Service)
    requires |services| > 0 && !Any(services, WithId(id))
    ensures MergeFetched(services, id, d) == services
  {
    ReplaceWhereNone(services, WithId(id), d);
  }

  // ---------------------------------------------------------------- store

  class ServiceStore {
    var categories: seq<Category>
    var services: seq<Service>

    constructor()
      ensures categories == [] && services == []
    {
      categories := [];
      services := [];
    }

    function CategorizedServices(): (r: seq<Category>)
      reads this
      ensures |r| == |categories|
      ensures forall i :: 0 <= i < |r| ==> r[i].id == categories[i].id && r[i].name == categories[i].name
      ensures forall i, s :: 0 <= i < |r| ==> (s in r[i].services <==> s in services && s.category_id == Some(categories[i].id))
    {
      CategorizedAllMembers(categories, services);
      Categorized(categories, services)
    }

    /** `servicesCount`: the length of the list; the `|| 0` fallback never applies to a length. */
    function ServicesCount(): (r: nat)
      reads this
      ensures r == |services|
    {
      |services|
    }

    /** `fetchServices`: keep the flat service list and the categories with emptied service lists. */
    method FetchServices(response: Result<seq<Category>>) returns (r: Result<seq<Category>>)
      modifies this
      ensures response.Err? ==> r == response && categories == old(categories) && services == old(services)
      ensures response.Ok? ==>
        && services == FlatMap(response.value, ServicesOf)
        && categories == Map(response.value, Emptied)
        && r == Ok(categories)
      ensures response.Ok? ==> ServicesCount() == TotalLength(response.value, ServicesOf)
    {
      if response.Err? {
        return response;
      }
      var data := response.value;
      services := FlatMap(data, ServicesOf);
      FlatMapLength(data, ServicesOf);
      categories := Map(data, Emptied);
      r := Ok(categories);
    }

    /**
     * `getServiceById`: on success merge the row into the list and return it;
     * on failure answer from the list, or rethrow when it holds no such id.
     */
    method GetServiceById(id: string, response: Result<Service>) returns (r: Result<Service>)
      modifies this
      ensures categories == old(categories)
      ensures response.Err? ==> services == old(services) && r == FindOrFail(services, WithId(id), response.error)
      ensures response.Ok? ==> services == MergeFetched(old(services), id, response.value) && r == response
    {
      if response.Err? {
        r := FindOrFail(services, WithId(id), response.error);
        return;
      }
      var data := response.value;
      if |services| == 0 {
        services := services + [data];
      } else {
        services := ReplaceWhere(services, WithId(id), data);
      }
      r := response;
    }
  }
}
