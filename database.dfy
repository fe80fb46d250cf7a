/** The document store behind the Database interface of internal/database/database.go,
    as two keyed tables. `fails` on every call stands for a driver or network error the
    model does not predict. */
module Database {
  import opened Wrappers
  import opened Models

  // ---------------------------------------------------------------------------
  // Object identifiers

  /** An ObjectID, held as its Hex() form. */
  type ObjectId = string

  predicate IsHexDigit(c: char) {
    '0' <= c <= '9' || 'a' <= c <= 'f' || 'A' <= c <= 'F'
  }

  predicate IsLowerHexDigit(c: char) {
    '0' <= c <= '9' || 'a' <= c <= 'f'
  }

  /** The canonical text of an ObjectID: 24 lower-case hexadecimal digits. */
  predicate IsObjectId(s: string) {
    |s| == 24 && forall i | 0 <= i < |s| :: IsLowerHexDigit(s[i])
  }

  function LowerHexDigit(c: char): char {
    if 'A' <= c <= 'F' then (c as int + 32) as char else c
  }

  /** primitive.ObjectIDFromHex: exactly 24 hexadecimal digits of either case. */
  function ObjectIdFromHex(s: string): (r: Option<ObjectId>)
    ensures r.Some? <==> |s| == 24 && forall i | 0 <= i < |s| :: IsHexDigit(s[i])
    ensures r.Some? ==> IsObjectId(r.value)
    ensures r.Some? ==> forall i | 0 <= i < 24 :: r.value[i] == LowerHexDigit(s[i])
  {
    if |s| == 24 && forall i | 0 <= i < |s| :: IsHexDigit(s[i]) then
      Some(seq(24, i requires 0 <= i < 24 => LowerHexDigit(s[i])))
    else None
  }

  /** Decoding the Hex() text of an ObjectID gives the same ObjectID back. */
  lemma ObjectIdHexRoundTrip(id: ObjectId)
    requires IsObjectId(id)
    ensures ObjectIdFromHex(id) == Some(id)
  {
    assert forall i | 0 <= i < 24 :: LowerHexDigit(id[i]) == id[i];
    assert ObjectIdFromHex(id).value == id;
  }

  // ---------------------------------------------------------------------------
  // The campaigns collection

  /** A conjunction of equality filters on `_id` and `created_by`; None leaves the key out. */
  datatype CampaignFilter = CampaignFilter(id: Option<ObjectId>, createdBy: Option<string>)

  predicate Matches(c: Campaign, f: CampaignFilter) {
    && (f.id.Some? ==> c.id == f.id.value)
    && (f.createdBy.Some? ==> c.createdBy == f.createdBy.value)
  }

  /** The fields an update document lists; every other field keeps its value. */
  datatype CampaignUpdate = CampaignUpdate(
    name: string,
    description: string,
    startDate: Time,
    endDate: Time,
    bannerUrl: string,
    updatedAt: Time)

  function Apply(c: Campaign, u: CampaignUpdate): (d: Campaign)
    ensures d.id == c.id && d.createdBy == c.createdBy && d.createdAt == c.createdAt
    ensures d.name == u.name && d.description == u.description && d.startDate == u.startDate
            && d.endDate == u.endDate && d.bannerUrl == u.bannerUrl && d.updatedAt == u.updatedAt
  {
    c.(name := u.name, description := u.description, startDate := u.startDate,
       endDate := u.endDate, bannerUrl := u.bannerUrl, updatedAt := u.updatedAt)
  }

  class CampaignStore {
    var rows: map<ObjectId, Campaign>

    /** Every record is filed under its own `_id`. */
    ghost predicate Valid()
      reads this
    {
      forall k | k in rows :: IsObjectId(k) && rows[k].id == k
    }

    constructor ()
      ensures Valid() && rows == map[]
    {
      rows := map[];
    }

    /** InsertOne: refused on a fault or a duplicate `_id`. */
    method InsertOne(doc: Campaign, fails: bool) returns (err: bool)
      requires Valid() && IsObjectId(doc.id)
      modifies this
      ensures Valid()
      ensures err == (fails || doc.id in old(rows))
      ensures rows == if err then old(rows) else old(rows)[doc.id := doc]
    {
      err := fails || doc.id in rows;
      if !err {
        rows := rows[doc.id := doc];
      }
    }

    /** FindOne: some record the filter matches; none (ErrNoDocuments) when none does. */
    method FindOne(f: CampaignFilter, fails: bool) returns (found: Option<Campaign>)
      requires Valid()
      ensures fails ==> found.None?
      ensures !fails ==> (found.None? <==> forall k | k in rows :: !Matches(rows[k], f))
      ensures found.Some? ==> found.value.id in rows && rows[found.value.id] == found.value && Matches(found.value, f)
    {
      if fails {
        return None;
      }
      if k :| k in rows && Matches(rows[k], f) {
        found := Some(rows[k]);
      } else {
        found := None;
      }
    }

    /** FindMany: every record the filter matches, each once, in no particular order. */
    method FindMany(f: CampaignFilter, fails: bool) returns (found: seq<Campaign>, err: bool)
      requires Valid()
      ensures err == fails
      ensures err ==> found == []
      ensures forall i | 0 <= i < |found| :: found[i].id in rows && rows[found[i].id] == found[i] && Matches(found[i], f)
      ensures !err ==> forall k | k in rows && Matches(rows[k], f) :: rows[k] in found
      ensures forall i, j | 0 <= i < j < |found| :: found[i].id != found[j].id
    {
      found := [];
      err := fails;
      if err {
        return;
      }
      var keys := rows.Keys;
      while keys != {}
        invariant keys <= rows.Keys
        invariant forall i | 0 <= i < |found| ::
          found[i].id in rows && rows[found[i].id] == found[i] && Matches(found[i], f) && found[i].id !in keys
        invariant forall k | k in rows && k !in keys && Matches(rows[k], f) :: rows[k] in found
        invariant forall i, j | 0 <= i < j < |found| :: found[i].id != found[j].id
        decreases keys
      {
        var k :| k in keys;
        if Matches(rows[k], f) {
          found := found + [rows[k]];
        }
        keys := keys - {k};
      }
    }

    /** UpdateOne: overwrites the listed fields of one matching record; no match is not
        an error. `hit` names the record that changed. */
    method UpdateOne(f: CampaignFilter, u: CampaignUpdate, fails: bool) returns (err: bool, ghost hit: Option<ObjectId>)
      requires Valid()
      modifies this
      ensures Valid()
      ensures err == fails
      ensures hit.None? ==> rows == old(rows) && (fails || forall k | k in old(rows) :: !Matches(old(rows)[k], f))
      ensures hit.Some? ==> && !fails && hit.value in old(rows) && Matches(old(rows)[hit.value], f)
                            && rows == old(rows)[hit.value := Apply(old(rows)[hit.value], u)]
    {
      err := fails;
      hit := None;
      if fails {
        return;
      }
      if k :| k in rows && Matches(rows[k], f) {
        rows := rows[k := Apply(rows[k], u)];
        hit := Some(k);
      }
    }

    /** DeleteOne: removes one matching record; no match is not an error. */
    method DeleteOne(f: CampaignFilter, fails: bool) returns (err: bool, ghost hit: Option<ObjectId>)
      requires Valid()
      modifies this
      ensures Valid()
      ensures err == fails
      ensures hit.None? ==> rows == old(rows) && (fails || forall k | k in old(rows) :: !Matches(old(rows)[k], f))
      ensures hit.Some? ==> && !fails && hit.value in old(rows) && Matches(old(rows)[hit.value], f)
                            && rows == old(rows) - {hit.value}
    {
      err := fails;
      hit := None;
      if fails {
        return;
      }
      if k :| k in rows && Matches(rows[k], f) {
        rows := rows - {k};
        hit := Some(k);
      }
    }
  }

  // ---------------------------------------------------------------------------
  // The users collection, with the unique index on `email`

  predicate EmailTaken(rows: map<ObjectId, User>, email: string) {
    exists k | k in rows :: rows[k].email == email
  }

  /** What the unique index on `email` guarantees. */
  ghost predicate UniqueEmails(rows: map<ObjectId, User>) {
    forall k, k' | k in rows && k' in rows && rows[k].email == rows[k'].email :: k == k'
  }

  /** The one user filed under an email, if any. */
  ghost function LookupEmail(rows: map<ObjectId, User>, email: string): (r: Option<User>)
    ensures r.Some? <==> EmailTaken(rows, email)
    ensures r.Some? ==> r.value.email == email && exists k | k in rows :: rows[k] == r.value
  {
    if EmailTaken(rows, email) then
      var k :| k in rows && rows[k].email == email;
      Some(rows[k])
    else None
  }

  /** Under the unique index any record with the email is the one LookupEmail finds. */
  lemma LookupEmailUnique(rows: map<ObjectId, User>, email: string, k: ObjectId)
    requires UniqueEmails(rows)
    requires k in rows && rows[k].email == email
    ensures LookupEmail(rows, email) == Some(rows[k])
  {
    var r := LookupEmail(rows, email);
    var k' :| k' in rows && rows[k'] == r.value;
    assert rows[k'].email == rows[k].email;
  }

  class UserStore {
    var rows: map<ObjectId, User>

    ghost predicate Valid()
      reads this
    {
      && (forall k | k in rows :: IsObjectId(k) && rows[k].id == k)
      && UniqueEmails(rows)
    }

    constructor ()
      ensures Valid() && rows == map[]
    {
      rows := map[];
    }

    /** InsertOne: refused on a fault, a duplicate `_id` or, by the unique index, an
        email already on file. */
    method InsertOne(doc: User, fails: bool) returns (err: bool)
      requires Valid() && IsObjectId(doc.id)
      modifies this
      ensures Valid()
      ensures err == (fails || doc.id in old(rows) || EmailTaken(old(rows), doc.email))
      ensures rows == if err then old(rows) else old(rows)[doc.id := doc]
    {
      err := fails || doc.id in rows || EmailTaken(rows, doc.email);
      if !err {
        rows := rows[doc.id := doc];
      }
    }

    /** FindOne with the filter `{"email": email}`. */
    method FindOne(email: string, fails: bool) returns (found: Option<User>)
      requires Valid()
      ensures found == if fails then None else LookupEmail(rows, email)
    {
      if fails {
        return None;
      }
      if k :| k in rows && rows[k].email == email {
        LookupEmailUnique(rows, email, k);
        found := Some(rows[k]);
      } else {
        found := None;
      }
    }
  }
}
