/** The owner-scoped campaign service (internal/services/campaign/campaign.go). Each
    operation resolves the caller's identity from its context first, then stamps
    (create) or filters on (list, get, update, delete) `created_by`. Every state-changing
    method is proved equal to a pure function of the old table; the ownership
    properties are proved about those functions. */
module CampaignService {
  import opened Wrappers
  import opened Models
  import opened Jwt
  import opened Database

  const CreateError: string := "error creating campaign"
  const ListError: string := "error getting campaigns"
  const GetError: string := "error getting campaign"
  const UpdateError: string := "error updating campaign"
  const DeleteError: string := "error deleting campaign"

  function InvalidId(id: string): string { "invalid campaign id: " + id }
  function NotFound(id: string): string { "no campaigns with id: " + id + " found" }
  function UpdateFailed(id: string): string { "could not update campaign with id: " + id }
  function DeleteFailed(id: string): string { "could not delete campaign with id: " + id }

  type Table = map<ObjectId, Campaign>

  /** The error a write returns (None for nil) and the table it leaves. */
  datatype Change = Change(err: Option<string>, rows: Table)

  /** The document CreateCampaign inserts, under the identifier the driver generated. */
  function NewRecord(c: Campaign, id: ObjectId, owner: string, now: Time): Campaign {
    Campaign(id, c.name, c.description, c.startDate, c.endDate, c.bannerUrl, owner, now, now)
  }

  /** The update document UpdateCampaign sends: no `created_by`, no `created_at`. */
  function UpdateDoc(c: Campaign, now: Time): CampaignUpdate {
    CampaignUpdate(c.name, c.description, c.startDate, c.endDate, c.bannerUrl, now)
  }

  /** `cs` is a FindMany answer for `{"created_by": owner}`: each of the owner's records
      once, and nothing else. */
  ghost predicate IsOwnedListing(cs: seq<Campaign>, rows: Table, owner: string) {
    && (forall i | 0 <= i < |cs| :: cs[i].id in rows && rows[cs[i].id] == cs[i] && cs[i].createdBy == owner)
    && (forall k | k in rows && rows[k].createdBy == owner :: rows[k] in cs)
    && (forall i, j | 0 <= i < j < |cs| :: cs[i].id != cs[j].id)
  }

  // ---------------------------------------------------------------------------
  // The operations, as functions of the context and the table

  function Create(ctx: Context, rows: Table, c: Campaign, newId: ObjectId, now: Time, fails: bool): (ch: Change)
    ensures ch.err.None? || ch.err == Some(CreateError)
    ensures ch.err.None? <==> GetAuthContext(ctx).Ok? && !fails && newId !in rows
    ensures ch.err.Some? ==> ch.rows == rows
    ensures ch.err.None? ==>
      && ch.rows.Keys == rows.Keys + {newId}
      && (forall k | k in rows :: ch.rows[k] == rows[k])
      && var rec := ch.rows[newId];
      && rec.id == newId && rec.createdBy == GetAuthContext(ctx).value.sub
      && rec.name == c.name && rec.description == c.description && rec.bannerUrl == c.bannerUrl
      && rec.startDate == c.startDate && rec.endDate == c.endDate
      && rec.createdAt == now && rec.updatedAt == now
  {
    match GetAuthContext(ctx)
    case Err(_) => Change(Some(CreateError), rows)
    case Ok(user) =>
      if fails || newId in rows then Change(Some(CreateError), rows)
      else Change(None, rows[newId := NewRecord(c, newId, user.sub, now)])
  }

  function GetById(ctx: Context, rows: Table, id: string, fails: bool): (r: (Campaign, Option<string>))
    ensures r.1.None? <==> && GetAuthContext(ctx).Ok? && ObjectIdFromHex(id).Some? && !fails
                           && ObjectIdFromHex(id).value in rows
                           && rows[ObjectIdFromHex(id).value].createdBy == GetAuthContext(ctx).value.sub
    ensures r.1.None? ==> r.0 == rows[ObjectIdFromHex(id).value] && r.0.createdBy == GetAuthContext(ctx).value.sub
    ensures r.1.Some? ==> r.0 == NoCampaign
    ensures GetAuthContext(ctx).Err? ==> r.1 == Some(GetError)
    ensures GetAuthContext(ctx).Ok? && ObjectIdFromHex(id).None? ==> r.1 == Some(InvalidId(id))
    ensures GetAuthContext(ctx).Ok? && ObjectIdFromHex(id).Some? && r.1.Some? ==> r.1 == Some(NotFound(id))
  {
    match GetAuthContext(ctx)
    case Err(_) => (NoCampaign, Some(GetError))
    case Ok(user) =>
      match ObjectIdFromHex(id)
      case None => (NoCampaign, Some(InvalidId(id)))
      case Some(oid) =>
        if !fails && oid in rows && rows[oid].createdBy == user.sub then (rows[oid], None)
        else (NoCampaign, Some(NotFound(id)))
  }

  function Update(ctx: Context, rows: Table, id: string, c: Campaign, now: Time, fails: bool): (ch: Change)
    ensures ch.rows.Keys == rows.Keys
    ensures forall k | k in rows :: ch.rows[k].id == rows[k].id && ch.rows[k].createdBy == rows[k].createdBy
                                    && ch.rows[k].createdAt == rows[k].createdAt
    ensures forall k | k in rows && ch.rows[k] != rows[k] ::
      GetAuthContext(ctx).Ok? && ObjectIdFromHex(id) == Some(k) && rows[k].createdBy == GetAuthContext(ctx).value.sub
    ensures ch.err.Some? ==> ch.rows == rows
    ensures GetAuthContext(ctx).Err? ==> ch.err == Some(UpdateError)
    ensures GetAuthContext(ctx).Ok? && ObjectIdFromHex(id).None? ==> ch.err == Some(InvalidId(id))
    ensures GetAuthContext(ctx).Ok? && ObjectIdFromHex(id).Some? ==> ch.err == if fails then Some(UpdateFailed(id)) else None
    ensures GetAuthContext(ctx).Ok? && !fails && ObjectIdFromHex(id).Some? && ObjectIdFromHex(id).value in rows
            && rows[ObjectIdFromHex(id).value].createdBy == GetAuthContext(ctx).value.sub ==>
      ch.rows == rows[ObjectIdFromHex(id).value := Apply(rows[ObjectIdFromHex(id).value], UpdateDoc(c, now))]
  {
    match GetAuthContext(ctx)
    case Err(_) => Change(Some(UpdateError), rows)
    case Ok(user) =>
      match ObjectIdFromHex(id)
      case None => Change(Some(InvalidId(id)), rows)
      case Some(oid) =>
        if fails then Change(Some(UpdateFailed(id)), rows)
        else if oid in rows && rows[oid].createdBy == user.sub then
          Change(None, rows[oid := Apply(rows[oid], UpdateDoc(c, now))])
        else Change(None, rows)
  }

  function Delete(ctx: Context, rows: Table, id: string, fails: bool): (ch: Change)
    ensures ch.rows.Keys <= rows.Keys
    ensures forall k | k in ch.rows :: ch.rows[k] == rows[k]
    ensures forall k | k in rows && k !in ch.rows ::
      GetAuthContext(ctx).Ok? && ObjectIdFromHex(id) == Some(k) && rows[k].createdBy == GetAuthContext(ctx).value.sub
    ensures ch.err.Some? ==> ch.rows == rows
    ensures GetAuthContext(ctx).Err? ==> ch.err == Some(DeleteError)
    ensures GetAuthContext(ctx).Ok? && ObjectIdFromHex(id).None? ==> ch.err == Some(InvalidId(id))
    ensures GetAuthContext(ctx).Ok? && ObjectIdFromHex(id).Some? ==> ch.err == if fails then Some(DeleteFailed(id)) else None
    ensures GetAuthContext(ctx).Ok? && !fails && ObjectIdFromHex(id).Some? && ObjectIdFromHex(id).value in rows
            && rows[ObjectIdFromHex(id).value].createdBy == GetAuthContext(ctx).value.sub ==>
      ch.rows == rows - {ObjectIdFromHex(id).value}
  {
    match GetAuthContext(ctx)
    case Err(_) => Change(Some(DeleteError), rows)
    case Ok(user) =>
      match ObjectIdFromHex(id)
      case None => Change(Some(InvalidId(id)), rows)
      case Some(oid) =>
        if fails then Change(Some(DeleteFailed(id)), rows)
        else if oid in rows && rows[oid].createdBy == user.sub then Change(None, rows - {oid})
        else Change(None, rows)
  }

  // ---------------------------------------------------------------------------
  // Properties of the scoping

  /** Without an identity nothing is written, whatever the operation. */
  lemma NoIdentityNoAccess(ctx: Context, rows: Table, c: Campaign, id: string, newId: ObjectId, now: Time, fails: bool)
    requires GetAuthContext(ctx).Err?
    ensures Create(ctx, rows, c, newId, now, fails) == Change(Some(CreateError), rows)
    ensures GetById(ctx, rows, id, fails) == (NoCampaign, Some(GetError))
    ensures Update(ctx, rows, id, c, now, fails) == Change(Some(UpdateError), rows)
    ensures Delete(ctx, rows, id, fails) == Change(Some(DeleteError), rows)
  {
  }

  /** A record of another owner is indistinguishable from no record at all: get, update
      and delete answer exactly as they would had it never been stored, and leave it in
      place. */
  lemma ForeignRecordLooksAbsent(ctx: Context, rows: Table, id: string, c: Campaign, now: Time, fails: bool, oid: ObjectId)
    requires GetAuthContext(ctx).Ok? && ObjectIdFromHex(id) == Some(oid)
    requires oid in rows && rows[oid].createdBy != GetAuthContext(ctx).value.sub
    ensures GetById(ctx, rows, id, fails) == GetById(ctx, rows - {oid}, id, fails) == (NoCampaign, Some(NotFound(id)))
    ensures Update(ctx, rows, id, c, now, fails).err == Update(ctx, rows - {oid}, id, c, now, fails).err
    ensures Update(ctx, rows, id, c, now, fails).rows == rows
    ensures Delete(ctx, rows, id, fails).err == Delete(ctx, rows - {oid}, id, fails).err
    ensures Delete(ctx, rows, id, fails).rows == rows
  {
  }

  /** Two callers A != B: what A creates, B can neither read, change nor remove. */
  lemma {:induction false} CrossOwnerIsolation(a: Context, b: Context, rows: Table, c: Campaign, newId: ObjectId, now: Time,
                                               c': Campaign, later: Time, fails: bool)
    requires GetAuthContext(a).Ok? && GetAuthContext(b).Ok?
    requires GetAuthContext(a).value.sub != GetAuthContext(b).value.sub
    requires IsObjectId(newId) && Create(a, rows, c, newId, now, fails).err.None?
    ensures var rows' := Create(a, rows, c, newId, now, fails).rows;
      && GetById(b, rows', newId, fails) == (NoCampaign, Some(NotFound(newId)))
      && Update(b, rows', newId, c', later, fails).rows[newId] == rows'[newId]
      && newId in Delete(b, rows', newId, fails).rows
  {
    var rows' := Create(a, rows, c, newId, now, fails).rows;
    ObjectIdHexRoundTrip(newId);
    assert rows'[newId].createdBy == GetAuthContext(a).value.sub;
  }

  // ---------------------------------------------------------------------------
  // The service

  class Service {
    const ctx: Context
    const db: CampaignStore

    constructor (ctx: Context, db: CampaignStore)
      ensures this.ctx == ctx && this.db == db
    {
      this.ctx := ctx;
      this.db := db;
    }

    method CreateCampaign(c: Campaign, newId: ObjectId, now: Time, fails: bool) returns (err: Option<string>)
      requires db.Valid() && IsObjectId(newId)
      modifies db
      ensures db.Valid()
      ensures Change(err, db.rows) == Create(ctx, old(db.rows), c, newId, now, fails)
    {
      var user := GetAuthContext(ctx);
      if user.Err? {
        return Some(CreateError);
      }
      var failed := db.InsertOne(NewRecord(c, newId, user.value.sub, now), fails);
      if failed {
        return Some(CreateError);
      }
      return None;
    }

    method GetCampaigns(fails: bool) returns (campaigns: seq<Campaign>, err: Option<string>)
      requires db.Valid()
      ensures err.None? <==> GetAuthContext(ctx).Ok? && !fails
      ensures err.Some? ==> err == Some(ListError) && campaigns == []
      ensures err.None? ==> IsOwnedListing(campaigns, db.rows, GetAuthContext(ctx).value.sub)
    {
      campaigns := [];
      var user := GetAuthContext(ctx);
      if user.Err? {
        return campaigns, Some(ListError);
      }
      var failed;
      campaigns, failed := db.FindMany(CampaignFilter(None, Some(user.value.sub)), fails);
      if failed {
        return campaigns, Some(ListError);
      }
      return campaigns, None;
    }

    method GetCampaignByID(id: string, fails: bool) returns (campaign: Campaign, err: Option<string>)
      requires db.Valid()
      ensures (campaign, err) == GetById(ctx, db.rows, id, fails)
    {
      var user := GetAuthContext(ctx);
      if user.Err? {
        return NoCampaign, Some(GetError);
      }
      var oid := ObjectIdFromHex(id);
      if oid.None? {
        return NoCampaign, Some(InvalidId(id));
      }
      var found := db.FindOne(CampaignFilter(Some(oid.value), Some(user.value.sub)), fails);
      if found.None? {
        return NoCampaign, Some(NotFound(id));
      }
      return found.value, None;
    }

    method UpdateCampaign(id: string, c: Campaign, now: Time, fails: bool) returns (err: Option<string>)
      requires db.Valid()
      modifies db
      ensures db.Valid()
      ensures Change(err, db.rows) == Update(ctx, old(db.rows), id, c, now, fails)
    {
      var user := GetAuthContext(ctx);
      if user.Err? {
        return Some(UpdateError);
      }
      var oid := ObjectIdFromHex(id);
      if oid.None? {
        return Some(InvalidId(id));
      }
      var failed, hit := db.UpdateOne(CampaignFilter(Some(oid.value), Some(user.value.sub)), UpdateDoc(c, now), fails);
      if failed {
        return Some(UpdateFailed(id));
      }
      return None;
    }

    method DeleteCampaign(id: string, fails: bool) returns (err: Option<string>)
      requires db.Valid()
      modifies db
      ensures db.Valid()
      ensures Change(err, db.rows) == Delete(ctx, old(db.rows), id, fails)
    {
      var user := GetAuthContext(ctx);
      if user.Err? {
        return Some(DeleteError);
      }
      var oid := ObjectIdFromHex(id);
      if oid.None? {
        return Some(InvalidId(id));
      }
      var failed, hit := db.DeleteOne(CampaignFilter(Some(oid.value), Some(user.value.sub)), fails);
      if failed {
        return Some(DeleteFailed(id));
      }
      return None;
    }
  }
}
