/**
  The lookup caches of the manager store.  Finding the tenant of a campaign or a subscriber means
  scanning the active tenants one transaction each, under row-level security; what a scan or a fetch
  learns is kept in three maps that are never emptied.
*/
module TenantCache {
  import opened Wrappers

  type Tenant = nat
  type Uuid = nat

  datatype Campaign = Campaign(id: int, uuid: string, tenant: Tenant)

  /**
    The database as one call sees it: the active tenants in the order they are listed, which calls
    fail, the rows of each table with their tenant, and what the fetches of each tenant return.
  */
  datatype World = World(
    active: Option<seq<Tenant>>,
    fails: Tenant -> bool,
    campaigns: set<(int, Uuid, Tenant)>,
    subscribers: set<(int, Tenant)>,
    due: Tenant -> seq<Campaign>,
    batch: (Tenant, int) -> seq<int>)

  datatype Answer = Found(tenant: Tenant) | BadUuid | Broken | NotFound

  datatype Caches = Caches(byId: map<int, Tenant>, byUuid: map<string, Tenant>, bySubscriber: map<int, Tenant>)

  type Parse = string -> Option<Uuid>

  // ---------------------------------------------------------------- uncached scans

  predicate HasCampaign(w: World, t: Tenant, id: int, u: Option<Uuid>) {
    exists c | c in w.campaigns :: c.2 == t && ((id > 0 && c.0 == id) || (u.Some? && c.1 == u.value))
  }

  function ScanCampaign(w: World, tenants: seq<Tenant>, id: int, u: Option<Uuid>): Answer {
    if tenants == [] then NotFound
    else if w.fails(tenants[0]) then Broken
    else if HasCampaign(w, tenants[0], id, u) then Found(tenants[0])
    else ScanCampaign(w, tenants[1..], id, u)
  }

  /** The answer of the scan for an identifier that no cache knows. */
  function CampaignInDb(w: World, parse: Parse, id: int, uuid: string): Answer {
    if uuid != "" && parse(uuid).None? then BadUuid
    else if w.active.None? then Broken
    else ScanCampaign(w, w.active.value, id, if uuid == "" then None else parse(uuid))
  }

  function ScanSubscriber(w: World, tenants: seq<Tenant>, id: int): Answer {
    if tenants == [] then NotFound
    else if w.fails(tenants[0]) then Broken
    else if (id, tenants[0]) in w.subscribers then Found(tenants[0])
    else ScanSubscriber(w, tenants[1..], id)
  }

  function SubscriberInDb(w: World, id: int): Answer {
    if w.active.None? then Broken else ScanSubscriber(w, w.active.value, id)
  }

  // ---------------------------------------------------------------- calls

  function Remember(c: Caches, id: int, uuid: string, t: Tenant): Caches {
    Caches(if id > 0 then c.byId[id := t] else c.byId, if uuid != "" then c.byUuid[uuid := t] else c.byUuid,
           c.bySubscriber)
  }

  predicate Hit(c: Caches, id: int, uuid: string) { (id > 0 && id in c.byId) || (uuid != "" && uuid in c.byUuid) }

  function CampaignAnswer(c: Caches, w: World, parse: Parse, id: int, uuid: string): Answer {
    if id > 0 && id in c.byId then Found(c.byId[id])
    else if uuid != "" && uuid in c.byUuid then Found(c.byUuid[uuid])
    else CampaignInDb(w, parse, id, uuid)
  }

  function AfterCampaign(c: Caches, w: World, parse: Parse, id: int, uuid: string): Caches {
    var a := CampaignAnswer(c, w, parse, id, uuid);
    if a.Found? && !Hit(c, id, uuid) then Remember(c, id, uuid, a.tenant) else c
  }

  function SubscriberAnswer(c: Caches, w: World, id: int): Answer {
    if id in c.bySubscriber then Found(c.bySubscriber[id]) else SubscriberInDb(w, id)
  }

  function AfterSubscriber(c: Caches, w: World, id: int): Caches {
    var a := SubscriberAnswer(c, w, id);
    if a.Found? then c.(bySubscriber := c.bySubscriber[id := a.tenant]) else c
  }

  function RememberAll(c: Caches, rows: seq<Campaign>, t: Tenant): Caches
    decreases |rows|
  {
    if rows == [] then c else RememberAll(Remember(c, rows[0].id, rows[0].uuid, t), rows[1..], t)
  }

  /** The campaigns of every active tenant up to the first that fails. */
  function AfterNextCampaigns(c: Caches, w: World, tenants: seq<Tenant>): Caches
    decreases |tenants|
  {
    if tenants == [] || w.fails(tenants[0]) then c
    else AfterNextCampaigns(RememberAll(c, w.due(tenants[0]), tenants[0]), w, tenants[1..])
  }

  function Prefixed(rows: seq<Campaign>, rest: Option<seq<Campaign>>): Option<seq<Campaign>> {
    if rest.None? then None else Some(rows + rest.value)
  }

  /** The due campaigns of all tenants in turn; nothing when one of the tenants fails. */
  function Due(w: World, tenants: seq<Tenant>): Option<seq<Campaign>> {
    if tenants == [] then Some([])
    else if w.fails(tenants[0]) then None
    else Prefixed(w.due(tenants[0]), Due(w, tenants[1..]))
  }

  function RememberSubscribers(m: map<int, Tenant>, ids: seq<int>, t: Tenant): map<int, Tenant>
    decreases |ids|
  {
    if ids == [] then m else RememberSubscribers(m[ids[0] := t], ids[1..], t)
  }

  function AfterNextSubscribers(c: Caches, w: World, parse: Parse, id: int): Caches {
    var a := CampaignAnswer(c, w, parse, id, "");
    var after := AfterCampaign(c, w, parse, id, "");
    if a.Found? && !w.fails(a.tenant)
    then after.(bySubscriber := RememberSubscribers(c.bySubscriber, w.batch(a.tenant, id), a.tenant))
    else after
  }

  // ---------------------------------------------------------------- the store

  class Store {
    var campaignTenantByID: map<int, Tenant>
    var campaignTenantByUUID: map<string, Tenant>
    var subscriberTenantByID: map<int, Tenant>
    const parse: Parse

    ghost function Contents(): Caches
      reads this
    {
      Caches(campaignTenantByID, campaignTenantByUUID, subscriberTenantByID)
    }

    constructor (parse: Parse)
      ensures Contents() == Caches(map[], map[], map[]) && this.parse == parse
    {
      campaignTenantByID, campaignTenantByUUID, subscriberTenantByID := map[], map[], map[];
      this.parse := parse;
    }

    method CacheCampaignTenant(id: int, uuid: string, t: Tenant)
      modifies this
      ensures Contents() == Remember(old(Contents()), id, uuid, t)
    {
      if id > 0 {
        campaignTenantByID := campaignTenantByID[id := t];
      }
      if uuid != "" {
        campaignTenantByUUID := campaignTenantByUUID[uuid := t];
      }
    }

    method CampaignTenant(w: World, id: int, uuid: string) returns (r: Answer)
      modifies this
      ensures r == CampaignAnswer(old(Contents()), w, parse, id, uuid)
      ensures Contents() == AfterCampaign(old(Contents()), w, parse, id, uuid)
    {
      if id > 0 && id in campaignTenantByID {
        return Found(campaignTenantByID[id]);
      }
      if uuid != "" && uuid in campaignTenantByUUID {
        return Found(campaignTenantByUUID[uuid]);
      }
      var parsed := None;
      if uuid != "" {
        parsed := parse(uuid);
        if parsed.None? {
          return BadUuid;
        }
      }
      if w.active.None? {
        return Broken;
      }
      var tenantIDs := w.active.value;
      var n := 0;
      assert tenantIDs[0..] == tenantIDs;
      while n < |tenantIDs|
        invariant 0 <= n <= |tenantIDs| && Contents() == old(Contents())
        invariant ScanCampaign(w, tenantIDs[n..], id, parsed) == ScanCampaign(w, tenantIDs, id, parsed)
      {
        assert tenantIDs[n..][1..] == tenantIDs[n + 1..];
        if w.fails(tenantIDs[n]) {
          return Broken;
        }
        if HasCampaign(w, tenantIDs[n], id, parsed) {
          CacheCampaignTenant(id, uuid, tenantIDs[n]);
          return Found(tenantIDs[n]);
        }
        n := n + 1;
      }
      return NotFound;
    }

    method SubscriberTenant(w: World, id: int) returns (r: Answer)
      modifies this
      ensures r == SubscriberAnswer(old(Contents()), w, id)
      ensures Contents() == AfterSubscriber(old(Contents()), w, id)
    {
      if id in subscriberTenantByID {
        assert subscriberTenantByID[id := subscriberTenantByID[id]] == subscriberTenantByID;
        return Found(subscriberTenantByID[id]);
      }
      if w.active.None? {
        return Broken;
      }
      var tenantIDs := w.active.value;
      var n := 0;
      assert tenantIDs[0..] == tenantIDs;
      while n < |tenantIDs|
        invariant 0 <= n <= |tenantIDs| && Contents() == old(Contents())
        invariant ScanSubscriber(w, tenantIDs[n..], id) == ScanSubscriber(w, tenantIDs, id)
      {
        assert tenantIDs[n..][1..] == tenantIDs[n + 1..];
        if w.fails(tenantIDs[n]) {
          return Broken;
        }
        if (id, tenantIDs[n]) in w.subscribers {
          subscriberTenantByID := subscriberTenantByID[id := tenantIDs[n]];
          return Found(tenantIDs[n]);
        }
        n := n + 1;
      }
      return NotFound;
    }

    /** The campaigns due in every active tenant, or nothing when one of the tenants fails. */
    method NextCampaigns(w: World) returns (out: Option<seq<Campaign>>)
      modifies this
      ensures w.active.None? ==> out == None && Contents() == old(Contents())
      ensures w.active.Some? ==> Contents() == AfterNextCampaigns(old(Contents()), w, w.active.value)
      ensures out == if w.active.None? then None else Due(w, w.active.value)
    {
      if w.active.None? {
        return None;
      }
      var tenantIDs := w.active.value;
      var rows: seq<Campaign> := [];
      var n := 0;
      assert tenantIDs[0..] == tenantIDs && forall rest: seq<Campaign> :: [] + rest == rest;
      while n < |tenantIDs|
        invariant 0 <= n <= |tenantIDs|
        invariant Due(w, tenantIDs) == Prefixed(rows, Due(w, tenantIDs[n..]))
        invariant AfterNextCampaigns(Contents(), w, tenantIDs[n..])
          == AfterNextCampaigns(old(Contents()), w, tenantIDs)
      {
        var t := tenantIDs[n];
        assert tenantIDs[n..][0] == t && tenantIDs[n..][1..] == tenantIDs[n + 1..];
        if w.fails(t) {
          return None;
        }
        var due, k := w.due(t), 0;
        ghost var before := Contents();
        assert due[0..] == due;
        while k < |due|
          invariant 0 <= k <= |due| && RememberAll(Contents(), due[k..], t) == RememberAll(before, due, t)
        {
          assert due[k..][1..] == due[k + 1..];
          CacheCampaignTenant(due[k].id, due[k].uuid, t);
          k := k + 1;
        }
        assert forall rest :: rows + (due + rest) == rows + due + rest;
        rows := rows + due;
        n := n + 1;
      }
      assert tenantIDs[n..] == [] && rows + [] == rows;
      return Some(rows);
    }

    method NextSubscribers(w: World, campID: int) returns (out: Option<seq<int>>)
      modifies this
      ensures Contents() == AfterNextSubscribers(old(Contents()), w, parse, campID)
      ensures var a := CampaignAnswer(old(Contents()), w, parse, campID, "");
        out == if a.Found? && !w.fails(a.tenant) then Some(w.batch(a.tenant, campID)) else None
    {
      var a := CampaignTenant(w, campID, "");
      if !a.Found? || w.fails(a.tenant) {
        return None;
      }
      var ids, k := w.batch(a.tenant, campID), 0;
      ghost var before := Contents();
      assert ids[0..] == ids;
      while k < |ids|
        invariant 0 <= k <= |ids|
        invariant Contents() == before.(bySubscriber := subscriberTenantByID)
        invariant RememberSubscribers(subscriberTenantByID, ids[k..], a.tenant)
          == RememberSubscribers(before.bySubscriber, ids, a.tenant)
      {
        assert ids[k..][1..] == ids[k + 1..];
        subscriberTenantByID := subscriberTenantByID[ids[k] := a.tenant];
        k := k + 1;
      }
      return Some(ids);
    }
  }

  // ---------------------------------------------------------------- ownership

  /** Whose each id is: fixed for good, and shared by no two tenants. */
  datatype Owners = Owners(campaign: int -> Tenant, uuid: Uuid -> Tenant, subscriber: int -> Tenant)

  /** Rows come and go and tenants are activated, but a row is always its owner's. */
  ghost predicate Respects(w: World, o: Owners, parse: Parse) {
    && (forall c | c in w.campaigns :: c.2 == o.campaign(c.0) == o.uuid(c.1))
    && (forall s | s in w.subscribers :: s.1 == o.subscriber(s.0))
    && (forall t, c | c in w.due(t) :: OwnRow(o, parse, c, t))
    && (forall t, id, s | s in w.batch(t, id) :: o.subscriber(s) == t)
  }

  ghost predicate OwnRow(o: Owners, parse: Parse, c: Campaign, t: Tenant) {
    t == o.campaign(c.id) && (c.uuid != "" ==> parse(c.uuid).Some? && t == o.uuid(parse(c.uuid).value))
  }

  ghost predicate Truthful(c: Caches, o: Owners, parse: Parse) {
    && (forall id | id in c.byId :: c.byId[id] == o.campaign(id))
    && (forall u | u in c.byUuid :: parse(u).Some? && c.byUuid[u] == o.uuid(parse(u).value))
    && (forall id | id in c.bySubscriber :: c.bySubscriber[id] == o.subscriber(id))
  }

  lemma {:induction false} ScanFindsOwner(
      w: World, tenants: seq<Tenant>, id: int, u: Option<Uuid>, o: Owners, parse: Parse)
    requires Respects(w, o, parse) && (id > 0 ==> u.None?)
    requires ScanCampaign(w, tenants, id, u).Found?
    ensures id > 0 ==> ScanCampaign(w, tenants, id, u).tenant == o.campaign(id)
    ensures u.Some? ==> ScanCampaign(w, tenants, id, u).tenant == o.uuid(u.value)
    decreases |tenants|
  {
    if !HasCampaign(w, tenants[0], id, u) {
      ScanFindsOwner(w, tenants[1..], id, u, o, parse);
    }
  }

  lemma {:induction false} SubscriberScanFindsOwner(w: World, tenants: seq<Tenant>, id: int, o: Owners, parse: Parse)
    requires Respects(w, o, parse) && ScanSubscriber(w, tenants, id).Found?
    ensures ScanSubscriber(w, tenants, id).tenant == o.subscriber(id)
    decreases |tenants|
  {
    if (id, tenants[0]) !in w.subscribers {
      SubscriberScanFindsOwner(w, tenants[1..], id, o, parse);
    }
  }

  /** A call names a campaign by its id or by its UUID, not by both. */
  predicate OneIdentifier(id: int, uuid: string) { id <= 0 || uuid == "" }

  lemma CampaignIsTruthful(c: Caches, w: World, o: Owners, parse: Parse, id: int, uuid: string)
    requires Truthful(c, o, parse) && Respects(w, o, parse) && OneIdentifier(id, uuid)
    ensures Truthful(AfterCampaign(c, w, parse, id, uuid), o, parse)
    ensures var a := CampaignAnswer(c, w, parse, id, uuid);
      a.Found? ==>
        && (id > 0 ==> a.tenant == o.campaign(id))
        && (uuid != "" ==> parse(uuid).Some? && a.tenant == o.uuid(parse(uuid).value))
  {
    if !Hit(c, id, uuid) && CampaignInDb(w, parse, id, uuid).Found? {
      ScanFindsOwner(w, w.active.value, id, if uuid == "" then None else parse(uuid), o, parse);
    }
  }

  lemma SubscriberIsTruthful(c: Caches, w: World, o: Owners, parse: Parse, id: int)
    requires Truthful(c, o, parse) && Respects(w, o, parse)
    ensures Truthful(AfterSubscriber(c, w, id), o, parse)
    ensures SubscriberAnswer(c, w, id).Found? ==> SubscriberAnswer(c, w, id).tenant == o.subscriber(id)
  {
    if id !in c.bySubscriber && SubscriberInDb(w, id).Found? {
      SubscriberScanFindsOwner(w, w.active.value, id, o, parse);
    }
  }

  lemma {:induction false} RowsAreTruthful(c: Caches, rows: seq<Campaign>, t: Tenant, o: Owners, parse: Parse)
    requires Truthful(c, o, parse) && forall r | r in rows :: OwnRow(o, parse, r, t)
    ensures Truthful(RememberAll(c, rows, t), o, parse)
    decreases |rows|
  {
    if rows != [] {
      assert OwnRow(o, parse, rows[0], t);
      RowsAreTruthful(Remember(c, rows[0].id, rows[0].uuid, t), rows[1..], t, o, parse);
    }
  }

  lemma {:induction false} NextCampaignsIsTruthful(c: Caches, w: World, tenants: seq<Tenant>, o: Owners, parse: Parse)
    requires Truthful(c, o, parse) && Respects(w, o, parse)
    ensures Truthful(AfterNextCampaigns(c, w, tenants), o, parse)
    decreases |tenants|
  {
    if tenants != [] && !w.fails(tenants[0]) {
      RowsAreTruthful(c, w.due(tenants[0]), tenants[0], o, parse);
      NextCampaignsIsTruthful(RememberAll(c, w.due(tenants[0]), tenants[0]), w, tenants[1..], o, parse);
    }
  }

  lemma {:induction false} BatchIsTruthful(m: map<int, Tenant>, ids: seq<int>, t: Tenant, o: Owners)
    requires (forall id | id in m :: m[id] == o.subscriber(id)) && forall s | s in ids :: o.subscriber(s) == t
    ensures var after := RememberSubscribers(m, ids, t); forall id | id in after :: after[id] == o.subscriber(id)
    decreases |ids|
  {
    if ids != [] {
      BatchIsTruthful(m[ids[0] := t], ids[1..], t, o);
    }
  }

  // ---------------------------------------------------------------- any sequence of calls

  datatype Call =
    | AskCampaign(id: int, uuid: string)
    | AskSubscriber(id: int)
    | NextCampaigns
    | NextSubscribers(id: int)

  function AfterCall(c: Caches, w: World, parse: Parse, call: Call): Caches {
    match call
    case AskCampaign(id, uuid) => AfterCampaign(c, w, parse, id, uuid)
    case AskSubscriber(id) => AfterSubscriber(c, w, id)
    case NextCampaigns => if w.active.None? then c else AfterNextCampaigns(c, w, w.active.value)
    case NextSubscribers(id) => AfterNextSubscribers(c, w, parse, id)
  }

  function AfterCalls(parse: Parse, calls: seq<(World, Call)>): Caches {
    if calls == [] then Caches(map[], map[], map[])
    else AfterCall(AfterCalls(parse, calls[..|calls| - 1]), calls[|calls| - 1].0, parse, calls[|calls| - 1].1)
  }

  ghost predicate Sound(parse: Parse, o: Owners, step: (World, Call)) {
    Respects(step.0, o, parse) && (step.1.AskCampaign? ==> OneIdentifier(step.1.id, step.1.uuid))
  }

  lemma CallIsTruthful(c: Caches, step: (World, Call), o: Owners, parse: Parse)
    requires Truthful(c, o, parse) && Sound(parse, o, step)
    ensures Truthful(AfterCall(c, step.0, parse, step.1), o, parse)
  {
    var (w, call) := step;
    match call
    case AskCampaign(id, uuid) => CampaignIsTruthful(c, w, o, parse, id, uuid);
    case AskSubscriber(id) => SubscriberIsTruthful(c, w, o, parse, id);
    case NextCampaigns =>
      if w.active.Some? {
        NextCampaignsIsTruthful(c, w, w.active.value, o, parse);
      }
    case NextSubscribers(id) =>
      CampaignIsTruthful(c, w, o, parse, id, "");
      var a := CampaignAnswer(c, w, parse, id, "");
      if a.Found? {
        BatchIsTruthful(c.bySubscriber, w.batch(a.tenant, id), a.tenant, o);
      }
  }

  /** After any calls in any changing database the caches hold nothing but true owners. */
  lemma {:induction false} CallsAreTruthful(parse: Parse, calls: seq<(World, Call)>, o: Owners)
    requires forall i | 0 <= i < |calls| :: Sound(parse, o, calls[i])
    ensures Truthful(AfterCalls(parse, calls), o, parse)
    decreases |calls|
  {
    if calls != [] {
      CallsAreTruthful(parse, calls[..|calls| - 1], o);
      CallIsTruthful(AfterCalls(parse, calls[..|calls| - 1]), calls[|calls| - 1], o, parse);
    }
  }

  /**
    Whatever came before: an answer is the owner, a miss is what the scan gives, and a hit differs
    from the scan exactly when the scan finds no row, because it fails or the row or its tenant is
    no longer there to be found.
  */
  lemma AnswersAgreeWithScan(parse: Parse, calls: seq<(World, Call)>, o: Owners, w: World, id: int, uuid: string)
    requires forall i | 0 <= i < |calls| :: Sound(parse, o, calls[i])
    requires Respects(w, o, parse) && OneIdentifier(id, uuid)
    ensures var c, scan := AfterCalls(parse, calls), CampaignInDb(w, parse, id, uuid);
      var answer := CampaignAnswer(c, w, parse, id, uuid);
      && (answer.Found? && id > 0 ==> answer.tenant == o.campaign(id))
      && (answer.Found? && uuid != "" ==> parse(uuid).Some? && answer.tenant == o.uuid(parse(uuid).value))
      && (answer == scan <==> !Hit(c, id, uuid) || scan.Found?)
  {
    var c := AfterCalls(parse, calls);
    CallsAreTruthful(parse, calls, o);
    CampaignIsTruthful(c, w, o, parse, id, uuid);
    var empty := Caches(map[], map[], map[]);
    CampaignIsTruthful(empty, w, o, parse, id, uuid);
    assert CampaignAnswer(empty, w, parse, id, uuid) == CampaignInDb(w, parse, id, uuid);
  }

  lemma SubscribersAgreeWithScan(parse: Parse, calls: seq<(World, Call)>, o: Owners, w: World, id: int)
    requires forall i | 0 <= i < |calls| :: Sound(parse, o, calls[i])
    requires Respects(w, o, parse)
    ensures var c, scan := AfterCalls(parse, calls), SubscriberInDb(w, id);
      var answer := SubscriberAnswer(c, w, id);
      && (answer.Found? ==> answer.tenant == o.subscriber(id))
      && (answer == scan <==> id !in c.bySubscriber || scan.Found?)
  {
    var c := AfterCalls(parse, calls);
    CallsAreTruthful(parse, calls, o);
    SubscriberIsTruthful(c, w, o, parse, id);
    SubscriberIsTruthful(Caches(map[], map[], map[]), w, o, parse, id);
  }

  // ---------------------------------------------------------------- what the rows alone say

  /** The identifiers given name the row. */
  predicate Names(parse: Parse, id: int, uuid: string, row: (int, Uuid, Tenant)) {
    (id > 0 && row.0 == id) || (uuid != "" && parse(uuid) == Some(row.1))
  }

  ghost predicate NoRow(w: World, parse: Parse, id: int, uuid: string, t: Tenant) {
    forall row | row in w.campaigns && row.2 == t :: !Names(parse, id, uuid, row)
  }

  lemma {:induction false} ScanSkips(w: World, parse: Parse, ts: seq<Tenant>, id: int, uuid: string, i: nat)
    requires i <= |ts| && (uuid != "" ==> parse(uuid).Some?)
    requires forall j | 0 <= j < i :: !w.fails(ts[j]) && NoRow(w, parse, id, uuid, ts[j])
    ensures var u := if uuid == "" then None else parse(uuid);
      ScanCampaign(w, ts, id, u) == ScanCampaign(w, ts[i..], id, u)
    decreases i
  {
    if i > 0 {
      assert NoRow(w, parse, id, uuid, ts[0]);
      ScanSkips(w, parse, ts[1..], id, uuid, i - 1);
      assert ts[1..][i - 1..] == ts[i..];
    } else {
      assert ts[0..] == ts;
    }
  }

  /** No cache knows the campaign, and the UUID, if one is given, can be read. */
  predicate Asked(c: Caches, parse: Parse, id: int, uuid: string) {
    && !(id > 0 && id in c.byId) && !(uuid != "" && uuid in c.byUuid)
    && (uuid != "" ==> parse(uuid).Some?)
  }

  /** A miss answers the first active tenant that has a row with that id or UUID, if none up to it fails. */
  lemma FoundInRows(
      c: Caches, w: World, parse: Parse, id: int, uuid: string, ts: seq<Tenant>, i: nat, row: (int, Uuid, Tenant))
    requires Asked(c, parse, id, uuid) && w.active == Some(ts) && i < |ts|
    requires row in w.campaigns && row.2 == ts[i] && Names(parse, id, uuid, row)
    requires forall j | 0 <= j <= i :: !w.fails(ts[j])
    requires forall j | 0 <= j < i :: NoRow(w, parse, id, uuid, ts[j])
    ensures CampaignAnswer(c, w, parse, id, uuid) == Found(ts[i])
  {
    ScanSkips(w, parse, ts, id, uuid, i);
    assert ts[i..][0] == ts[i];
  }

  /** Some tenant fails before one with a row is reached. */
  ghost predicate FailsFirst(w: World, parse: Parse, id: int, uuid: string, ts: seq<Tenant>) {
    exists i :: 0 <= i < |ts| && w.fails(ts[i]) && forall j | 0 <= j < i :: NoRow(w, parse, id, uuid, ts[j])
  }

  lemma FailsFirstSplits(w: World, parse: Parse, id: int, uuid: string, ts: seq<Tenant>)
    requires ts != []
    ensures FailsFirst(w, parse, id, uuid, ts) <==>
      w.fails(ts[0]) || (NoRow(w, parse, id, uuid, ts[0]) && FailsFirst(w, parse, id, uuid, ts[1..]))
  {
    var rest := ts[1..];
    if FailsFirst(w, parse, id, uuid, ts) && !w.fails(ts[0]) {
      var i :| 0 <= i < |ts| && w.fails(ts[i]) && forall j | 0 <= j < i :: NoRow(w, parse, id, uuid, ts[j]);
      assert w.fails(rest[i - 1]);
    }
    if FailsFirst(w, parse, id, uuid, rest) && NoRow(w, parse, id, uuid, ts[0]) {
      var i :| 0 <= i < |rest| && w.fails(rest[i]) && forall j | 0 <= j < i :: NoRow(w, parse, id, uuid, rest[j]);
      forall j | 0 <= j < i + 1 ensures NoRow(w, parse, id, uuid, ts[j]) {
        assert j == 0 || ts[j] == rest[j - 1];
      }
      assert w.fails(ts[i + 1]);
    }
  }

  lemma {:induction false} ScanStops(w: World, parse: Parse, ts: seq<Tenant>, id: int, uuid: string)
    requires uuid != "" ==> parse(uuid).Some?
    ensures var a := ScanCampaign(w, ts, id, if uuid == "" then None else parse(uuid));
      && (a == NotFound <==> forall i | 0 <= i < |ts| :: !w.fails(ts[i]) && NoRow(w, parse, id, uuid, ts[i]))
      && (a == Broken <==> FailsFirst(w, parse, id, uuid, ts))
    decreases |ts|
  {
    if ts != [] {
      var u := if uuid == "" then None else parse(uuid);
      RowIsNamed(w, parse, ts[0], id, uuid);
      FailsFirstSplits(w, parse, id, uuid, ts);
      ScanStops(w, parse, ts[1..], id, uuid);
      assert forall i | 0 < i < |ts| :: ts[i] == ts[1..][i - 1];
      assert ts[1..] == [] || ts[1..][0] == ts[1];
    }
  }

  lemma RowIsNamed(w: World, parse: Parse, t: Tenant, id: int, uuid: string)
    requires uuid != "" ==> parse(uuid).Some?
    ensures HasCampaign(w, t, id, if uuid == "" then None else parse(uuid)) <==> !NoRow(w, parse, id, uuid, t)
  {}

  /** A UUID that cannot be read is refused before any tenant is looked at. */
  lemma UnreadableUuid(c: Caches, w: World, parse: Parse, id: int, uuid: string)
    requires !(id > 0 && id in c.byId) && uuid !in c.byUuid && uuid != "" && parse(uuid).None?
    ensures CampaignAnswer(c, w, parse, id, uuid) == BadUuid && AfterCampaign(c, w, parse, id, uuid) == c
  {}

  /** A miss fails exactly when the tenants cannot be listed, or one of them fails before a row is found. */
  lemma BrokenByTenants(c: Caches, w: World, parse: Parse, id: int, uuid: string)
    requires Asked(c, parse, id, uuid)
    ensures CampaignAnswer(c, w, parse, id, uuid) == Broken <==>
      w.active.None? || FailsFirst(w, parse, id, uuid, w.active.value)
  {
    if w.active.Some? {
      ScanStops(w, parse, w.active.value, id, uuid);
    }
  }

  /** A miss finds nothing exactly when no active tenant fails and none has a row. */
  lemma NotFoundInRows(c: Caches, w: World, parse: Parse, id: int, uuid: string)
    requires Asked(c, parse, id, uuid)
    ensures CampaignAnswer(c, w, parse, id, uuid) == NotFound <==>
      w.active.Some? && forall i | 0 <= i < |w.active.value| ::
        !w.fails(w.active.value[i]) && NoRow(w, parse, id, uuid, w.active.value[i])
  {
    if w.active.Some? {
      ScanStops(w, parse, w.active.value, id, uuid);
    }
  }

  /** The same for subscribers: the first active tenant with the row answers a miss. */
  lemma {:induction false} SubscriberFoundInRows(c: Caches, w: World, id: int, ts: seq<Tenant>, i: nat)
    requires id !in c.bySubscriber && w.active == Some(ts) && i < |ts| && (id, ts[i]) in w.subscribers
    requires forall j | 0 <= j <= i :: !w.fails(ts[j])
    requires forall j | 0 <= j < i :: (id, ts[j]) !in w.subscribers
    ensures SubscriberAnswer(c, w, id) == Found(ts[i])
    decreases i
  {
    if i > 0 {
      SubscriberFoundInRows(c, w.(active := Some(ts[1..])), id, ts[1..], i - 1);
      SubscriberScanOf(w, w.(active := Some(ts[1..])), ts[1..], id);
    }
  }

  /** A scan looks at the rows and failures only. */
  lemma {:induction false} SubscriberScanOf(w: World, v: World, ts: seq<Tenant>, id: int)
    requires v.fails == w.fails && v.subscribers == w.subscribers
    ensures ScanSubscriber(v, ts, id) == ScanSubscriber(w, ts, id)
    decreases |ts|
  {
    if ts != [] {
      SubscriberScanOf(w, v, ts[1..], id);
    }
  }

  lemma SubscriberNotFoundInRows(c: Caches, w: World, id: int)
    requires id !in c.bySubscriber
    ensures SubscriberAnswer(c, w, id) == NotFound <==>
      w.active.Some? && forall t | t in w.active.value :: !w.fails(t) && (id, t) !in w.subscribers
  {
    if w.active.Some? {
      SubscriberScanStops(w, w.active.value, id);
    }
  }

  lemma {:induction false} SubscriberScanStops(w: World, ts: seq<Tenant>, id: int)
    ensures ScanSubscriber(w, ts, id) == NotFound <==> forall t | t in ts :: !w.fails(t) && (id, t) !in w.subscribers
    ensures ScanSubscriber(w, ts, id) != BadUuid
    decreases |ts|
  {
    if ts != [] {
      assert forall t :: t in ts <==> t == ts[0] || t in ts[1..];
      SubscriberScanStops(w, ts[1..], id);
    }
  }

  /** The due campaigns are those of every tenant in turn: of one tenant its own, of two lists those of the first and
      then those of the second; and there is nothing when one tenant fails. */
  lemma {:induction false} DueIsJoined(w: World, a: seq<Tenant>, b: seq<Tenant>)
    ensures Due(w, a + b) == match (Due(w, a), Due(w, b))
                             case (Some(x), Some(y)) => Some(x + y)
                             case _ => None
    ensures forall t :: Due(w, [t]) == if w.fails(t) then None else Some(w.due(t))
    ensures Due(w, []) == Some([])
    decreases |a|
  {
    forall t ensures Due(w, [t]) == if w.fails(t) then None else Some(w.due(t)) {
      assert [t][1..] == [] && w.due(t) + [] == w.due(t);
    }
    if a == [] {
      assert a + b == b && forall y: seq<Campaign> :: [] + y == y;
    } else {
      assert (a + b)[1..] == a[1..] + b;
      DueIsJoined(w, a[1..], b);
      if Due(w, a[1..]).Some? && Due(w, b).Some? {
        var x, y := Due(w, a[1..]).value, Due(w, b).value;
        assert w.due(a[0]) + (x + y) == (w.due(a[0]) + x) + y;
      }
    }
  }

  // ---------------------------------------------------------------- what is known stays known

  lemma {:induction false} RememberAllKeeps(c: Caches, rows: seq<Campaign>, t: Tenant)
    ensures var after := RememberAll(c, rows, t);
      && c.byId.Keys <= after.byId.Keys && c.byUuid.Keys <= after.byUuid.Keys && after.bySubscriber == c.bySubscriber
      && (forall r | r in rows && r.id > 0 :: r.id in after.byId)
      && (forall r | r in rows && r.uuid != "" :: r.uuid in after.byUuid)
    decreases |rows|
  {
    if rows != [] {
      assert forall r :: r in rows <==> r == rows[0] || r in rows[1..];
      RememberAllKeeps(Remember(c, rows[0].id, rows[0].uuid, t), rows[1..], t);
    }
  }

  lemma {:induction false} NextCampaignsKeeps(c: Caches, w: World, ts: seq<Tenant>)
    ensures var after := AfterNextCampaigns(c, w, ts);
      && c.byId.Keys <= after.byId.Keys && c.byUuid.Keys <= after.byUuid.Keys && after.bySubscriber == c.bySubscriber
      && (Due(w, ts).Some? ==> forall r | r in Due(w, ts).value && r.id > 0 :: r.id in after.byId)
    decreases |ts|
  {
    if ts != [] && !w.fails(ts[0]) {
      RememberAllKeeps(c, w.due(ts[0]), ts[0]);
      NextCampaignsKeeps(RememberAll(c, w.due(ts[0]), ts[0]), w, ts[1..]);
      if Due(w, ts[1..]).Some? {
        var x, y := w.due(ts[0]), Due(w, ts[1..]).value;
        assert forall r :: r in x + y <==> r in x || r in y;
      }
    }
  }

  lemma {:induction false} SubscribersKept(m: map<int, Tenant>, ids: seq<int>, t: Tenant)
    ensures m.Keys <= RememberSubscribers(m, ids, t).Keys
    ensures forall id | id in ids :: id in RememberSubscribers(m, ids, t)
    decreases |ids|
  {
    if ids != [] {
      assert forall id :: id in ids <==> id == ids[0] || id in ids[1..];
      SubscribersKept(m[ids[0] := t], ids[1..], t);
    }
  }

  lemma KnownAfterCall(c: Caches, w: World, parse: Parse, call: Call)
    ensures var after := AfterCall(c, w, parse, call);
      && c.byId.Keys <= after.byId.Keys && c.byUuid.Keys <= after.byUuid.Keys
      && c.bySubscriber.Keys <= after.bySubscriber.Keys
  {
    match call
    case AskCampaign(_, _) =>
    case AskSubscriber(_) =>
    case NextCampaigns => if w.active.Some? { NextCampaignsKeeps(c, w, w.active.value); }
    case NextSubscribers(id) =>
      var a := CampaignAnswer(c, w, parse, id, "");
      if a.Found? { SubscribersKept(c.bySubscriber, w.batch(a.tenant, id), a.tenant); }
  }

  lemma {:induction false} KnownAfterCalls(parse: Parse, calls: seq<(World, Call)>, more: seq<(World, Call)>)
    ensures var c, after := AfterCalls(parse, calls), AfterCalls(parse, calls + more);
      && c.byId.Keys <= after.byId.Keys && c.byUuid.Keys <= after.byUuid.Keys
      && c.bySubscriber.Keys <= after.bySubscriber.Keys
    decreases |more|
  {
    if more == [] {
      assert calls + more == calls;
    } else {
      var n := |more| - 1;
      KnownAfterCalls(parse, calls, more[..n]);
      assert (calls + more)[..|calls + more| - 1] == calls + more[..n];
      assert (calls + more)[|calls + more| - 1] == more[n];
      KnownAfterCall(AfterCalls(parse, calls + more[..n]), more[n].0, parse, more[n].1);
    }
  }

  /** A campaign that was found once, by its id or by its UUID, is found ever after, even when every tenant fails. */
  lemma FoundStaysFound(
      parse: Parse, calls: seq<(World, Call)>, more: seq<(World, Call)>, o: Owners, w: World, v: World, id: int,
      uuid: string)
    requires CampaignAnswer(AfterCalls(parse, calls), w, parse, id, uuid).Found? && OneIdentifier(id, uuid)
    requires forall i | 0 <= i < |calls + [(w, AskCampaign(id, uuid))] + more| ::
      Sound(parse, o, (calls + [(w, AskCampaign(id, uuid))] + more)[i])
    ensures uuid != "" ==> parse(uuid).Some?
    ensures id > 0 || uuid != "" ==>
      CampaignAnswer(AfterCalls(parse, calls + [(w, AskCampaign(id, uuid))] + more), v, parse, id, uuid)
      == Found(if id > 0 then o.campaign(id) else o.uuid(parse(uuid).value))
  {
    var asked := calls + [(w, AskCampaign(id, uuid))];
    assert asked[..|asked| - 1] == calls && asked[|asked| - 1] == (w, AskCampaign(id, uuid));
    assert Hit(AfterCalls(parse, asked), id, uuid) || (id <= 0 && uuid == "");
    KnownAfterCalls(parse, asked, more);
    CallsAreTruthful(parse, asked + more, o);
  }

  /** What a fetch of campaigns or subscribers returns is known afterwards, each under its owner. */
  lemma ReturnedIsKnown(c: Caches, w: World, parse: Parse, o: Owners, call: Call)
    requires Truthful(c, o, parse) && Respects(w, o, parse)
    ensures call.NextCampaigns? && w.active.Some? && Due(w, w.active.value).Some? ==>
      forall r | r in Due(w, w.active.value).value && r.id > 0 ::
        var after := AfterCall(c, w, parse, call); r.id in after.byId && after.byId[r.id] == o.campaign(r.id)
    ensures call.NextSubscribers? && call.id > 0 && call.id in c.byId && !w.fails(c.byId[call.id]) ==>
      forall s | s in w.batch(c.byId[call.id], call.id) ::
        var after := AfterCall(c, w, parse, call); s in after.bySubscriber && after.bySubscriber[s] == o.subscriber(s)
  {
    if !call.AskCampaign? {
      CallIsTruthful(c, (w, call), o, parse);
    }
    if call.NextCampaigns? && w.active.Some? {
      NextCampaignsKeeps(c, w, w.active.value);
    }
    if call.NextSubscribers? && call.id > 0 && call.id in c.byId {
      SubscribersKept(c.bySubscriber, w.batch(c.byId[call.id], call.id), c.byId[call.id]);
    }
  }
}
