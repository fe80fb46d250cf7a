/** The documents the campaign service writes and how a driver decodes them back into
    `models.Campaign` (internal/models/models.go:21-31). The struct tags only `ID`
    (`bson:"_id"`); every other field is read under its lower-cased Go name, while
    CreateCampaign (internal/services/campaign/campaign.go:46-55) writes snake_case keys. */
module Bson {
  import opened Models

  /** A stored field value: text, or a datetime. */
  datatype Value = Text(s: string) | Instant(t: Time)

  type Document = map<string, Value>

  /** The document CreateCampaign inserts for the record `c`, with the `_id` the driver
      adds (decoded as its hex text). */
  function CampaignDocument(c: Campaign): (d: Document)
    ensures d.Keys == {"_id", "name", "description", "start_date", "end_date", "banner_url",
                       "created_by", "created_at", "updated_at"}
  {
    map["_id" := Text(c.id), "name" := Text(c.name), "description" := Text(c.description),
        "start_date" := Instant(c.startDate), "end_date" := Instant(c.endDate),
        "banner_url" := Text(c.bannerUrl), "created_by" := Text(c.createdBy),
        "created_at" := Instant(c.createdAt), "updated_at" := Instant(c.updatedAt)]
  }

  /** A string field: left at "" when the key is absent. */
  function TextField(d: Document, key: string): string {
    if key in d && d[key].Text? then d[key].s else ""
  }

  /** A time.Time field: left at the zero Time when the key is absent. */
  function TimeField(d: Document, key: string): Time {
    if key in d && d[key].Instant? then d[key].t else ZeroTime
  }

  /** Decoding with the tags as declared: only `_id` is named; the rest use lower-cased
      field names. */
  function DecodeAsDeclared(d: Document): Campaign {
    Campaign(TextField(d, "_id"), TextField(d, "name"), TextField(d, "description"),
             TimeField(d, "startdate"), TimeField(d, "enddate"), TextField(d, "bannerurl"),
             TextField(d, "createdby"), TimeField(d, "createdat"), TimeField(d, "updatedat"))
  }

  /** Decoding with `bson` tags equal to the keys the service writes. */
  function DecodeSnakeCase(d: Document): Campaign {
    Campaign(TextField(d, "_id"), TextField(d, "name"), TextField(d, "description"),
             TimeField(d, "start_date"), TimeField(d, "end_date"), TextField(d, "banner_url"),
             TextField(d, "created_by"), TimeField(d, "created_at"), TimeField(d, "updated_at"))
  }

  /** As declared, a stored campaign reads back without its owner, dates and banner: only
      id, name and description survive, whatever was written. */
  lemma DeclaredTagsLoseFields(c: Campaign)
    ensures DecodeAsDeclared(CampaignDocument(c))
         == c.(startDate := ZeroTime, endDate := ZeroTime, bannerUrl := "", createdBy := "",
               createdAt := ZeroTime, updatedAt := ZeroTime)
  {
  }

  /** A concrete case: a campaign owned by "u1" is returned with an empty owner. */
  lemma DeclaredTagsDropOwner()
    ensures var c := Campaign("65f1c0ffee65f1c0ffee65f1", "Launch", "Spring launch", 1, 2, "b.png", "u1", 1, 1);
      DecodeAsDeclared(CampaignDocument(c)).createdBy == "" != c.createdBy
  {
  }

  /** With snake_case tags the written document reads back as exactly the record written,
      the identification the rest of the model makes between stored and returned records. */
  lemma SnakeCaseTagsRoundTrip(c: Campaign)
    ensures DecodeSnakeCase(CampaignDocument(c)) == c
  {
  }
}
