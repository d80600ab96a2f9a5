/** client/src/components/pages/ServiceManagement.jsx: the professional's
    list of services, with a category filter and a search box, the summary
    figures above it, and the edit form filled from a service. */
module ServiceManagement {
  import opened Common
  import opened Seqs
  import opened Text
  import opened Docs
  import opened Model
  import Bookings
  import Services

  /** The service passes the category filter ('all' passes every service)
      and its name or description contains the query, ignoring case. */
  predicate Matches(d: Doc<Service>, category: string, query: string) {
    (category == "all" || d.val.category == category)
    && (ContainsIgnoreCase(d.val.name, query) || ContainsIgnoreCase(d.val.description, query))
  }

  /** `filteredServices`: the matching services, in the loaded order. */
  function FilteredServices(services: seq<Doc<Service>>, category: string, query: string): (r: seq<Doc<Service>>)
    ensures IsSubseq(r, services)
    ensures forall d :: d in services ==> (d in r <==> Matches(d, category, query))
    ensures forall d :: d in r ==> d in services
  {
    var p := (d: Doc<Service>) => Matches(d, category, query);
    FilterIsSubseq(services, p);
    Bookings.FilterMembers(services, p);
    Filter(services, p)
  }

  /** With 'all' and an empty search every service is listed. */
  lemma ShowAll(services: seq<Doc<Service>>)
    ensures FilteredServices(services, "all", "") == services
  {
    var p := (d: Doc<Service>) => Matches(d, "all", "");
    forall i | 0 <= i < |services| ensures p(services[i]) {
      EmptyContained(Lower(services[i].val.name));
    }
    FilterAll(services, p);
  }

  /** The summary figures above the list. */
  datatype ServiceStats = ServiceStats(total: nat, active: nat, minPrice: int, maxPrice: int)

  function IsActive(): Doc<Service> -> bool {
    (d: Doc<Service>) => d.val.isActive
  }

  /** `Math.min(...prices)` over a non-empty list: a price of the list that
      no price undercuts. */
  function MinPrice(services: seq<Doc<Service>>): (m: int)
    requires |services| > 0
    ensures exists i :: 0 <= i < |services| && services[i].val.price == m
    ensures forall i :: 0 <= i < |services| ==> m <= services[i].val.price
  {
    if |services| == 1 then services[0].val.price
    else
      var rest := MinPrice(services[1..]);
      assert forall i :: 1 <= i < |services| ==> services[i] == services[1..][i - 1];
      if services[0].val.price <= rest then services[0].val.price else rest
  }

  /** `Math.max(...prices)` over a non-empty list: a price of the list that
      no price exceeds. */
  function MaxPrice(services: seq<Doc<Service>>): (m: int)
    requires |services| > 0
    ensures exists i :: 0 <= i < |services| && services[i].val.price == m
    ensures forall i :: 0 <= i < |services| ==> services[i].val.price <= m
  {
    if |services| == 1 then services[0].val.price
    else
      var rest := MaxPrice(services[1..]);
      assert forall i :: 1 <= i < |services| ==> services[i] == services[1..][i - 1];
      if services[0].val.price >= rest then services[0].val.price else rest
  }

  /** `stats`: the number of services, the number of active ones, and the
      cheapest and dearest prices (both 0 for an empty list). */
  function Stats(services: seq<Doc<Service>>): (r: ServiceStats)
    ensures r.total == |services| && r.active <= r.total
    ensures r.active == |Filter(services, IsActive())|
    ensures |services| == 0 ==> r.minPrice == 0 && r.maxPrice == 0
    ensures |services| > 0 ==>
      && (exists i :: 0 <= i < |services| && services[i].val.price == r.minPrice)
      && (exists i :: 0 <= i < |services| && services[i].val.price == r.maxPrice)
      && (forall i :: 0 <= i < |services| ==> r.minPrice <= services[i].val.price <= r.maxPrice)
  {
    CountIsFilterLength(services, IsActive());
    ServiceStats(
      |services|,
      Count(services, IsActive()),
      if |services| > 0 then MinPrice(services) else 0,
      if |services| > 0 then MaxPrice(services) else 0)
  }

  /** The service form (`serviceData`). */
  datatype ServiceForm = ServiceForm(name: string, description: string, duration: int, price: int, category: string)

  /** `handleEdit`: the form filled from the service, its description
      defaulting to "". */
  function EditForm(s: Service): (f: ServiceForm)
    ensures f.name == s.name && f.duration == s.duration && f.price == s.price && f.category == s.category
    ensures f.description == (if Truthy(s.description) then s.description else "")
  {
    ServiceForm(s.name, OrElse(s.description, ""), s.duration, s.price, s.category)
  }

  /** The body the form sends to `PUT /update/:id`: every form field, and no
      `isActive`. */
  function FormPatch(f: ServiceForm): Services.Patch {
    Services.Patch(Some(f.name), Some(f.description), Services.Number(f.duration), Services.Number(f.price), Some(f.category), None)
  }

  /** Saving the edit form untouched leaves the service as it was: each
      field is either sent back unchanged or, when falsy, not applied. */
  lemma EditUnchangedKeeps(s: Service)
    ensures Services.Patched(FormPatch(EditForm(s)))(s) == s
  {
    Services.PatchedSpec(FormPatch(EditForm(s)), s);
  }

  /** `handleToggle`: the body `{ isActive: !current }` flips the service's
      visibility and changes nothing else. */
  lemma ToggleFlipsOnlyActive(s: Service)
    ensures Services.Patched(Services.Patch(None, None, Services.Absent, Services.Absent, None, Some(!s.isActive)))(s)
         == s.(isActive := !s.isActive)
  {
  }
}
