/** The service endpoints: create, read, partial update and delete of monitored
    services, with the slug kept unique by the handlers themselves. */
module ServiceRoutes {
  import opened Wrappers
  import opened Clock
  import opened Strings
  import opened Seqs
  import opened Models

  // ---------- Validation ----------

  predicate KnownServiceKind(k: string) {
    k == "HTTP" || k == "TCP"
  }

  /** The `kind` validator of the request and response schemas: upper-case it, then
      accept only HTTP and TCP. */
  function ValidateKind(v: string): (r: Result<string>)
    ensures r.Ok? <==> KnownServiceKind(Upper(v))
    ensures r.Ok? ==> r.value == Upper(v)
    ensures r.Err? ==> r.error == Invalid("kind must be 'HTTP' or 'TCP'")
  {
    var u := Upper(v);
    if KnownServiceKind(u) then Ok(u) else Err(Invalid("kind must be 'HTTP' or 'TCP'"))
  }

  /** The validator ignores case, and an accepted kind passes it again unchanged. */
  lemma ValidateKindCaseless(v: string)
    ensures ValidateKind(Upper(v)) == ValidateKind(v)
    ensures ValidateKind(v).Ok? ==> ValidateKind(ValidateKind(v).value) == ValidateKind(v)
  {
    UpperTwice(v);
  }

  /** The create request, with the schema defaults already applied to omitted fields:
      a 60-second interval, a 5-second timeout, and the three flags set. */
  datatype ServiceCreate = ServiceCreate(
    name: string,
    slug: string,
    kind: string,
    target: string,
    checkIntervalSec: int,
    timeoutSec: int,
    enabled: bool,
    alertOnDown: bool,
    alertOnRecovery: bool)

  /** The response: a stored row read back through the schema, whose `kind` validator
      runs again. A row whose kind an update left invalid cannot be returned. */
  function ServiceOut(s: Service): (r: Result<Service>)
    ensures r.Ok? <==> KnownServiceKind(Upper(s.kind))
    ensures r.Ok? ==> r.value == s.(kind := Upper(s.kind))
  {
    match ValidateKind(s.kind)
    case Err(_) => Err(Raised("ValidationError"))
    case Ok(k) => Ok(s.(kind := k))
  }

  // ---------- Lookups ----------

  /** `query(Service).filter(Service.id == id).first()`. */
  function FindService(rows: seq<Service>, id: int): (k: int)
    ensures -1 <= k < |rows|
    ensures k < 0 <==> !HasService(rows, id)
    ensures k >= 0 ==> rows[k].id == id
  {
    IndexOf(rows, (s: Service) => s.id == id)
  }

  /** `query(Service).filter(Service.slug == slug).first()`. */
  function FindSlug(rows: seq<Service>, slug: string): (k: int)
    ensures -1 <= k < |rows|
    ensures k < 0 <==> forall i :: 0 <= i < |rows| ==> rows[i].slug != slug
    ensures k >= 0 ==> rows[k].slug == slug
  {
    IndexOf(rows, (s: Service) => s.slug == slug)
  }

  /** With unique keys, the row found for an id is the only row with that id. */
  lemma FoundIsOnly(rows: seq<Service>, id: int, i: int)
    requires ServiceKeys(rows) && 0 <= i < |rows| && rows[i].id == id
    ensures FindService(rows, id) == i
  {
    assert HasService(rows, id);
  }

  // ---------- Create ----------

  /** The row a create request inserts: the kind upper-cased once more, both timestamps
      from the column default. */
  function NewService(id: int, p: ServiceCreate, now: Timestamp): Service {
    Service(id, p.name, p.slug, Upper(p.kind), p.target, p.checkIntervalSec, p.timeoutSec,
            p.enabled, p.alertOnDown, p.alertOnRecovery, now, now)
  }

  /** A kind the validator accepted is stored and returned unchanged. */
  lemma NewServiceReadsBack(id: int, p: ServiceCreate, now: Timestamp)
    requires ValidateKind(p.kind).Ok?
    ensures var row := NewService(id, p.(kind := ValidateKind(p.kind).value), now);
      ServiceOut(row) == Ok(row) && row.kind == Upper(p.kind) && KnownServiceKind(row.kind)
  {
    UpperTwice(p.kind);
  }

  /** Appending a row with a fresh key and a fresh slug keeps the table valid. */
  lemma AppendKeepsValid(services: seq<Service>, statuses: seq<ServiceStatus>, row: Service)
    requires ServiceKeys(services) && UniqueSlugs(services)
    requires forall i :: 0 <= i < |statuses| ==> HasService(services, statuses[i].serviceId)
    requires row.id == NextServiceId(services)
    requires forall i :: 0 <= i < |services| ==> services[i].slug != row.slug
    ensures ServiceKeys(services + [row]) && UniqueSlugs(services + [row])
    ensures forall i :: 0 <= i < |statuses| ==> HasService(services + [row], statuses[i].serviceId)
  {
    var r := services + [row];
    forall i | 0 <= i < |statuses|
      ensures HasService(r, statuses[i].serviceId)
    {
      var j :| 0 <= j < |services| && services[j].id == statuses[i].serviceId;
      assert r[j] == services[j];
    }
  }

  /** `POST /services`: a kind other than HTTP or TCP is refused by the request schema,
      a slug already taken is refused with 400; otherwise the row is appended. */
  method CreateService(table: ServiceTable, p: ServiceCreate, now: Timestamp) returns (res: Result<Service>)
    requires table.Valid()
    modifies table
    ensures table.Valid() && table.statuses == old(table.statuses)
    ensures ValidateKind(p.kind).Err? ==> res == Err(ValidateKind(p.kind).error) && table.services == old(table.services)
    ensures ValidateKind(p.kind).Ok? && FindSlug(old(table.services), p.slug) >= 0 ==>
              res == Err(BadRequest("Slug already exists")) && table.services == old(table.services)
    ensures ValidateKind(p.kind).Ok? && FindSlug(old(table.services), p.slug) < 0 ==>
              var row := NewService(NextServiceId(old(table.services)), p.(kind := ValidateKind(p.kind).value), now);
              table.services == old(table.services) + [row] && res == Ok(row)
  {
    var kind := ValidateKind(p.kind);
    if kind.Err? {
      return Err(kind.error);
    }
    if FindSlug(table.services, p.slug) >= 0 {
      return Err(BadRequest("Slug already exists"));
    }
    var row := NewService(NextServiceId(table.services), p.(kind := kind.value), now);
    NewServiceReadsBack(row.id, p, now);
    AppendKeepsValid(table.services, table.statuses, row);
    table.services := table.services + [row];
    res := ServiceOut(row);
  }

  // ---------- Read ----------

  /** `GET /services/{id}`. */
  method GetService(table: ServiceTable, id: int) returns (res: Result<Service>)
    ensures FindService(table.services, id) < 0 ==> res == Err(NotFound("Service not found"))
    ensures FindService(table.services, id) >= 0 ==> res == ServiceOut(table.services[FindService(table.services, id)])
  {
    var k := FindService(table.services, id);
    if k < 0 {
      return Err(NotFound("Service not found"));
    }
    res := ServiceOut(table.services[k]);
  }

  /** `GET /services`: every row, in table order; one unreadable row fails the request. */
  method ListServices(table: ServiceTable) returns (res: Result<seq<Service>>)
    ensures res.Ok? <==> forall k :: 0 <= k < |table.services| ==> ServiceOut(table.services[k]).Ok?
    ensures res.Ok? ==> |res.value| == |table.services|
                        && forall k :: 0 <= k < |table.services| ==> res.value[k] == ServiceOut(table.services[k]).value
  {
    res := ConvertAll(table.services, ServiceOut);
  }

  // ---------- Update ----------

  /** A partial update: `None` leaves a field alone. The integer and boolean columns
      are nullable, but only a value can be given for them. */
  datatype ServicePatch = ServicePatch(
    name: Option<string>,
    slug: Option<string>,
    kind: Option<string>,
    target: Option<string>,
    checkIntervalSec: Option<int>,
    timeoutSec: Option<int>,
    enabled: Option<bool>,
    alertOnDown: Option<bool>,
    alertOnRecovery: Option<bool>)

  /** The field assignments of `update_service`: a given kind is upper-cased but not
      validated, and `updated_at` is always bumped. */
  function PatchService(s: Service, p: ServicePatch, now: Timestamp): Service {
    s.(name := p.name.GetOr(s.name),
       slug := p.slug.GetOr(s.slug),
       kind := if p.kind.Some? then Upper(p.kind.value) else s.kind,
       target := p.target.GetOr(s.target),
       checkIntervalSec := p.checkIntervalSec.GetOr(s.checkIntervalSec),
       timeoutSec := p.timeoutSec.GetOr(s.timeoutSec),
       enabled := p.enabled.GetOr(s.enabled),
       alertOnDown := p.alertOnDown.GetOr(s.alertOnDown),
       alertOnRecovery := p.alertOnRecovery.GetOr(s.alertOnRecovery),
       updatedAt := now)
  }

  /** Only the fields present in the patch change; the key and creation time never do. */
  lemma PatchChangesOnlyGiven(s: Service, p: ServicePatch, now: Timestamp)
    ensures var u := PatchService(s, p, now);
      && u.id == s.id && u.createdAt == s.createdAt && u.updatedAt == now
      && (p.name.None? ==> u.name == s.name) && (p.name.Some? ==> u.name == p.name.value)
      && (p.slug.None? ==> u.slug == s.slug) && (p.slug.Some? ==> u.slug == p.slug.value)
      && (p.kind.None? ==> u.kind == s.kind) && (p.kind.Some? ==> u.kind == Upper(p.kind.value))
      && (p.target.None? ==> u.target == s.target) && (p.target.Some? ==> u.target == p.target.value)
      && (p.checkIntervalSec.None? ==> u.checkIntervalSec == s.checkIntervalSec)
      && (p.checkIntervalSec.Some? ==> u.checkIntervalSec == p.checkIntervalSec.value)
      && (p.timeoutSec.None? ==> u.timeoutSec == s.timeoutSec)
      && (p.timeoutSec.Some? ==> u.timeoutSec == p.timeoutSec.value)
      && (p.enabled.None? ==> u.enabled == s.enabled) && (p.enabled.Some? ==> u.enabled == p.enabled.value)
      && (p.alertOnDown.None? ==> u.alertOnDown == s.alertOnDown)
      && (p.alertOnDown.Some? ==> u.alertOnDown == p.alertOnDown.value)
      && (p.alertOnRecovery.None? ==> u.alertOnRecovery == s.alertOnRecovery)
      && (p.alertOnRecovery.Some? ==> u.alertOnRecovery == p.alertOnRecovery.value)
  {
  }

  /** The slug check of an update: refused only when another service holds the slug. */
  predicate SlugTaken(rows: seq<Service>, id: int, p: ServicePatch) {
    p.slug.Some? && FindSlug(rows, p.slug.value) >= 0 && rows[FindSlug(rows, p.slug.value)].id != id
  }

  /** When the slug check passes, no other row holds the slug the updated row ends up with. */
  lemma SlugFreeForOthers(rows: seq<Service>, k: int, p: ServicePatch, now: Timestamp)
    requires ServiceKeys(rows) && UniqueSlugs(rows) && 0 <= k < |rows|
    requires !SlugTaken(rows, rows[k].id, p)
    ensures forall i :: 0 <= i < |rows| && i != k ==> rows[i].slug != PatchService(rows[k], p, now).slug
  {
    var slug := PatchService(rows[k], p, now).slug;
    if p.slug.Some? {
      var e := FindSlug(rows, slug);
      if e >= 0 {
        assert rows[e].id == rows[k].id;
        assert e == k;
      }
    }
  }

  /** Replacing a row by its patched version keeps the table valid when the slug check passed. */
  lemma PatchKeepsValid(services: seq<Service>, statuses: seq<ServiceStatus>, k: int, p: ServicePatch, now: Timestamp)
    requires ServiceKeys(services) && UniqueSlugs(services) && 0 <= k < |services|
    requires forall i :: 0 <= i < |statuses| ==> HasService(services, statuses[i].serviceId)
    requires !SlugTaken(services, services[k].id, p)
    ensures var r := services[k := PatchService(services[k], p, now)];
      && ServiceKeys(r) && UniqueSlugs(r)
      && forall i :: 0 <= i < |statuses| ==> HasService(r, statuses[i].serviceId)
  {
    var r := services[k := PatchService(services[k], p, now)];
    SlugFreeForOthers(services, k, p, now);
    forall i | 0 <= i < |statuses|
      ensures HasService(r, statuses[i].serviceId)
    {
      var j :| 0 <= j < |services| && services[j].id == statuses[i].serviceId;
      assert r[j].id == services[j].id;
    }
  }

  /** `PATCH /services/{id}`: not found, or refused because another service holds the
      new slug (nothing is committed), or the patched row is stored. */
  method UpdateService(table: ServiceTable, id: int, p: ServicePatch, now: Timestamp) returns (res: Result<Service>)
    requires table.Valid()
    modifies table
    ensures table.Valid() && table.statuses == old(table.statuses)
    ensures var k := FindService(old(table.services), id);
      && (k < 0 ==> res == Err(NotFound("Service not found")) && table.services == old(table.services))
      && (k >= 0 && SlugTaken(old(table.services), id, p) ==>
            res == Err(BadRequest("Slug already in use")) && table.services == old(table.services))
      && (k >= 0 && !SlugTaken(old(table.services), id, p) ==>
            var u := PatchService(old(table.services)[k], p, now);
            table.services == old(table.services)[k := u] && res == ServiceOut(u))
  {
    var k := FindService(table.services, id);
    if k < 0 {
      return Err(NotFound("Service not found"));
    }
    if p.slug.Some? {
      var e := FindSlug(table.services, p.slug.value);
      if e >= 0 && table.services[e].id != id {
        return Err(BadRequest("Slug already in use"));
      }
    }
    var u := PatchService(table.services[k], p, now);
    PatchKeepsValid(table.services, table.statuses, k, p, now);
    table.services := table.services[k := u];
    res := ServiceOut(u);
  }

  /** Re-sending a service's own slug is never refused. */
  lemma OwnSlugAllowed(rows: seq<Service>, k: int, p: ServicePatch)
    requires UniqueSlugs(rows) && 0 <= k < |rows| && p.slug == Some(rows[k].slug)
    ensures !SlugTaken(rows, rows[k].id, p)
  {
    var e := FindSlug(rows, rows[k].slug);
    assert e >= 0;
    assert e == k;
  }

  // ---------- Delete ----------

  /** The status rows once service `id` is gone: its one status row, if any, is deleted. */
  function DropStatus(statuses: seq<ServiceStatus>, id: int): (r: seq<ServiceStatus>) {
    var j := IndexOf(statuses, (st: ServiceStatus) => st.serviceId == id);
    if j < 0 then statuses else RemoveAt(statuses, j)
  }

  /** With one status row per service, dropping a service's status removes exactly the
      rows that point at it and keeps every other row in order. */
  lemma DropStatusExactly(statuses: seq<ServiceStatus>, id: int)
    requires forall i, j :: 0 <= i < j < |statuses| ==> statuses[i].serviceId != statuses[j].serviceId
    ensures var r := DropStatus(statuses, id);
      && (forall i :: 0 <= i < |r| ==> r[i].serviceId != id)
      && (forall st :: st in r <==> st in statuses && st.serviceId != id)
  {
    var j := IndexOf(statuses, (st: ServiceStatus) => st.serviceId == id);
    var r := DropStatus(statuses, id);
    if j >= 0 {
      forall i | 0 <= i < |r|
        ensures r[i].serviceId != id
      {
        if i >= j {
          assert r[i] == statuses[i + 1] && statuses[j].serviceId == id;
        }
      }
      forall st | st in statuses && st.serviceId != id
        ensures st in r
      {
        var i :| 0 <= i < |statuses| && statuses[i] == st;
        if i < j {
          assert r[i] == st;
        } else {
          assert i != j;
          assert r[i - 1] == st;
        }
      }
    }
  }

  /** Deleting service `k` and its status keeps the table valid. */
  lemma DeleteKeepsValid(services: seq<Service>, statuses: seq<ServiceStatus>, k: int)
    requires ServiceKeys(services) && UniqueSlugs(services) && StatusKeys(statuses) && 0 <= k < |services|
    requires forall i, j :: 0 <= i < j < |statuses| ==> statuses[i].serviceId != statuses[j].serviceId
    requires forall i :: 0 <= i < |statuses| ==> HasService(services, statuses[i].serviceId)
    ensures var s, st := RemoveAt(services, k), DropStatus(statuses, services[k].id);
      && ServiceKeys(s) && UniqueSlugs(s) && StatusKeys(st)
      && (forall i, j :: 0 <= i < j < |st| ==> st[i].serviceId != st[j].serviceId)
      && (forall i :: 0 <= i < |st| ==> HasService(s, st[i].serviceId))
  {
    var id := services[k].id;
    RemoveKeepsServiceKeys(services, k);
    DropStatusKeepsKeys(statuses, id);
    DropStatusKeepsOwners(services, statuses, k);
  }

  lemma RemoveKeepsServiceKeys(services: seq<Service>, k: int)
    requires ServiceKeys(services) && UniqueSlugs(services) && 0 <= k < |services|
    ensures ServiceKeys(RemoveAt(services, k)) && UniqueSlugs(RemoveAt(services, k))
  {
    RemoveKeepsPairs(services, k, (a: Service, b: Service) => a.id < b.id);
    RemoveKeepsPairs(services, k, (a: Service, b: Service) => a.slug != b.slug);
  }

  lemma DropStatusKeepsKeys(statuses: seq<ServiceStatus>, id: int)
    requires StatusKeys(statuses)
    requires forall i, j :: 0 <= i < j < |statuses| ==> statuses[i].serviceId != statuses[j].serviceId
    ensures var st := DropStatus(statuses, id);
      StatusKeys(st) && forall i, j :: 0 <= i < j < |st| ==> st[i].serviceId != st[j].serviceId
  {
    var j := IndexOf(statuses, (st: ServiceStatus) => st.serviceId == id);
    if j >= 0 {
      RemoveKeepsPairs(statuses, j, (a: ServiceStatus, b: ServiceStatus) => a.id < b.id);
      RemoveKeepsPairs(statuses, j, (a: ServiceStatus, b: ServiceStatus) => a.serviceId != b.serviceId);
    }
  }

  lemma DropStatusKeepsOwners(services: seq<Service>, statuses: seq<ServiceStatus>, k: int)
    requires 0 <= k < |services|
    requires forall i, j :: 0 <= i < j < |statuses| ==> statuses[i].serviceId != statuses[j].serviceId
    requires forall i :: 0 <= i < |statuses| ==> HasService(services, statuses[i].serviceId)
    ensures var s, st := RemoveAt(services, k), DropStatus(statuses, services[k].id);
      forall i :: 0 <= i < |st| ==> HasService(s, st[i].serviceId)
  {
    var id := services[k].id;
    var s, st := RemoveAt(services, k), DropStatus(statuses, id);
    DropStatusExactly(statuses, id);
    forall i | 0 <= i < |st|
      ensures HasService(s, st[i].serviceId)
    {
      assert st[i] in st;
      var m :| 0 <= m < |services| && services[m].id == st[i].serviceId;
      if m < k {
        assert s[m] == services[m];
      } else {
        assert s[m - 1] == services[m];
      }
    }
  }

  /** `DELETE /services/{id}`: the service and its status row are deleted together. */
  method DeleteService(table: ServiceTable, id: int) returns (res: Result<()>)
    requires table.Valid()
    modifies table
    ensures table.Valid()
    ensures var k := FindService(old(table.services), id);
      && (k < 0 ==> res == Err(NotFound("Service not found"))
                    && table.services == old(table.services) && table.statuses == old(table.statuses))
      && (k >= 0 ==> res == Ok(()) && table.services == RemoveAt(old(table.services), k)
                     && table.statuses == DropStatus(old(table.statuses), id))
  {
    var k := FindService(table.services, id);
    if k < 0 {
      return Err(NotFound("Service not found"));
    }
    DeleteKeepsValid(table.services, table.statuses, k);
    table.statuses := DropStatus(table.statuses, id);
    table.services := RemoveAt(table.services, k);
    res := Ok(());
  }

  /** After a delete no service has that id and no status row points at it. */
  lemma DeleteLeavesNoTrace(services: seq<Service>, statuses: seq<ServiceStatus>, k: int)
    requires ServiceKeys(services) && 0 <= k < |services|
    requires forall i, j :: 0 <= i < j < |statuses| ==> statuses[i].serviceId != statuses[j].serviceId
    ensures !HasService(RemoveAt(services, k), services[k].id)
    ensures forall i :: 0 <= i < |DropStatus(statuses, services[k].id)| ==>
              DropStatus(statuses, services[k].id)[i].serviceId != services[k].id
  {
    var s := RemoveAt(services, k);
    forall m | 0 <= m < |s|
      ensures s[m].id != services[k].id
    {
      if m < k {
        assert s[m] == services[m];
      } else {
        assert s[m] == services[m + 1];
      }
    }
    DropStatusExactly(statuses, services[k].id);
  }
}
