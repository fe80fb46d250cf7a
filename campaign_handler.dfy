/** The campaign validator and the five campaign handlers
    (internal/handlers/campaign/campaign.go). A request body is `Some(campaign)` when it
    decoded and `None` when json decoding failed; the context is the one the guard put
    on the request. */
module CampaignHandler {
  import opened Wrappers
  import opened Models
  import opened Http
  import opened Jwt
  import opened Database
  import opened CampaignService

  /** The `data` of a campaign response. */
  datatype Payload = CampaignList(campaigns: seq<Campaign>) | OneCampaign(campaign: Campaign)

  const DecodeError: string := "error decoding request body"

  /** validateCampaign: the checks in their order, the first failure's message. */
  function ValidateCampaign(c: Campaign): (err: Option<string>)
    ensures err.None? <==> && c.name != "" && c.description != "" && !IsZero(c.startDate)
                           && !IsZero(c.endDate) && !Before(c.endDate, c.startDate) && c.bannerUrl != ""
    ensures err == Some("name is required") <==> c.name == ""
    ensures err == Some("description is required") <==> c.name != "" && c.description == ""
    ensures err == Some("start date is required") <==> c.name != "" && c.description != "" && IsZero(c.startDate)
    ensures err == Some("end date is required") <==>
      c.name != "" && c.description != "" && !IsZero(c.startDate) && IsZero(c.endDate)
    ensures err == Some("end date must be after start date") <==>
      c.name != "" && c.description != "" && !IsZero(c.startDate) && !IsZero(c.endDate) && Before(c.endDate, c.startDate)
    ensures err == Some("banner url is required") <==>
      && c.name != "" && c.description != "" && !IsZero(c.startDate) && !IsZero(c.endDate)
      && !Before(c.endDate, c.startDate) && c.bannerUrl == ""
  {
    if c.name == "" then Some("name is required")
    else if c.description == "" then Some("description is required")
    else if IsZero(c.startDate) then Some("start date is required")
    else if IsZero(c.endDate) then Some("end date is required")
    else if Before(c.endDate, c.startDate) then Some("end date must be after start date")
    else if c.bannerUrl == "" then Some("banner url is required")
    else None
  }

  /** A campaign that ends the moment it starts passes: Before is strict. */
  lemma SameDayCampaignAccepted(c: Campaign)
    requires c.name != "" && c.description != "" && c.bannerUrl != ""
    requires !IsZero(c.startDate) && c.endDate == c.startDate
    ensures ValidateCampaign(c) == None
  {
  }

  // ---------------------------------------------------------------------------
  // Status mapping

  /** The body reached the service: it decoded and it is valid. */
  predicate Admitted(body: Option<Campaign>) {
    body.Some? && ValidateCampaign(body.value).None?
  }

  /** Create and update: 400 before the service, then 500 on its error, else `success`. */
  function WriteReply(body: Option<Campaign>, serviceErr: Option<string>, success: int, message: string): (reply: Reply<Payload>)
    requires success != StatusBadRequest && success != StatusInternalServerError
    ensures reply.status == StatusBadRequest <==> !Admitted(body)
    ensures reply.status == StatusInternalServerError <==> Admitted(body) && serviceErr.Some?
    ensures Admitted(body) && serviceErr.None? ==> reply == Reply(success, ApiResponse(message, None))
    ensures body.None? ==> reply.body.message == DecodeError
    ensures body.Some? && !Admitted(body) ==> reply.body.message == ValidateCampaign(body.value).value
    ensures Admitted(body) && serviceErr.Some? ==> reply.body.message == serviceErr.value
  {
    if body.None? then Reply(StatusBadRequest, ApiResponse(DecodeError, None))
    else if ValidateCampaign(body.value).Some? then Reply(StatusBadRequest, ApiResponse(ValidateCampaign(body.value).value, None))
    else if serviceErr.Some? then Reply(StatusInternalServerError, ApiResponse(serviceErr.value, None))
    else Reply(success, ApiResponse(message, None))
  }

  /** List and get: 404 carrying the service's message, else 200 with the data. */
  function ReadReply(serviceErr: Option<string>, data: Payload, message: string): (reply: Reply<Payload>)
    ensures reply.status == StatusNotFound <==> serviceErr.Some?
    ensures serviceErr.Some? ==> reply.body == ApiResponse(serviceErr.value, None)
    ensures serviceErr.None? ==> reply == Reply(StatusOK, ApiResponse(message, Some(data)))
  {
    match serviceErr
    case Some(e) => Reply(StatusNotFound, ApiResponse(e, None))
    case None => Reply(StatusOK, ApiResponse(message, Some(data)))
  }

  /** Delete: 500 carrying the service's message, else 200. */
  function DeleteReply(serviceErr: Option<string>): (reply: Reply<Payload>)
    ensures reply.status == StatusInternalServerError <==> serviceErr.Some?
    ensures serviceErr.Some? ==> reply.body == ApiResponse(serviceErr.value, None)
    ensures serviceErr.None? ==> reply == Reply(StatusOK, ApiResponse("campaign deleted successfully", None))
  {
    match serviceErr
    case Some(e) => Reply(StatusInternalServerError, ApiResponse(e, None))
    case None => Reply(StatusOK, ApiResponse("campaign deleted successfully", None))
  }

  // ---------------------------------------------------------------------------
  // The handlers

  method CreateCampaignHandler(w: ResponseWriter<Payload>, ctx: Context, body: Option<Campaign>, db: CampaignStore,
                               newId: ObjectId, now: Time, fails: bool)
    requires w.Unwritten() && db.Valid() && IsObjectId(newId)
    modifies w, db
    ensures db.Valid()
    ensures !Admitted(body) ==> db.rows == old(db.rows) && w.Sent(WriteReply(body, None, StatusCreated, "campaign created successfully"))
    ensures Admitted(body) ==>
      var ch := Create(ctx, old(db.rows), body.value, newId, now, fails);
      db.rows == ch.rows && w.Sent(WriteReply(body, ch.err, StatusCreated, "campaign created successfully"))
  {
    if body.None? {
      Respond(w, Reply(StatusBadRequest, ApiResponse(DecodeError, None)));
      return;
    }
    var invalid := ValidateCampaign(body.value);
    if invalid.Some? {
      Respond(w, Reply(StatusBadRequest, ApiResponse(invalid.value, None)));
      return;
    }
    var service := new Service(ctx, db);
    var err := service.CreateCampaign(body.value, newId, now, fails);
    if err.Some? {
      Respond(w, Reply(StatusInternalServerError, ApiResponse(err.value, None)));
      return;
    }
    Respond(w, Reply(StatusCreated, ApiResponse("campaign created successfully", None)));
  }

  method GetCampaignsHandler(w: ResponseWriter<Payload>, ctx: Context, db: CampaignStore, fails: bool)
    requires w.Unwritten() && db.Valid()
    modifies w
    ensures GetAuthContext(ctx).Err? || fails ==> w.Sent(Reply(StatusNotFound, ApiResponse(ListError, None)))
    ensures GetAuthContext(ctx).Ok? && !fails ==>
      && w.status == StatusOK && |w.body| == 1
      && w.body[0].message == "campaigns retrieved successfully"
      && w.body[0].data.Some? && w.body[0].data.value.CampaignList?
      && IsOwnedListing(w.body[0].data.value.campaigns, db.rows, GetAuthContext(ctx).value.sub)
  {
    var service := new Service(ctx, db);
    var campaigns, err := service.GetCampaigns(fails);
    Respond(w, ReadReply(err, CampaignList(campaigns), "campaigns retrieved successfully"));
  }

  method GetCampaignByIDHandler(w: ResponseWriter<Payload>, ctx: Context, id: string, db: CampaignStore, fails: bool)
    requires w.Unwritten() && db.Valid()
    modifies w
    ensures var (campaign, err) := GetById(ctx, db.rows, id, fails);
      w.Sent(ReadReply(err, OneCampaign(campaign), "campaign retrieved successfully"))
  {
    var service := new Service(ctx, db);
    var campaign, err := service.GetCampaignByID(id, fails);
    Respond(w, ReadReply(err, OneCampaign(campaign), "campaign retrieved successfully"));
  }

  method UpdateCampaignHandler(w: ResponseWriter<Payload>, ctx: Context, id: string, body: Option<Campaign>,
                               db: CampaignStore, now: Time, fails: bool)
    requires w.Unwritten() && db.Valid()
    modifies w, db
    ensures db.Valid()
    ensures !Admitted(body) ==> db.rows == old(db.rows) && w.Sent(WriteReply(body, None, StatusOK, "campaign updated successfully"))
    ensures Admitted(body) ==>
      var ch := Update(ctx, old(db.rows), id, body.value, now, fails);
      db.rows == ch.rows && w.Sent(WriteReply(body, ch.err, StatusOK, "campaign updated successfully"))
  {
    if body.None? {
      Respond(w, Reply(StatusBadRequest, ApiResponse(DecodeError, None)));
      return;
    }
    var invalid := ValidateCampaign(body.value);
    if invalid.Some? {
      Respond(w, Reply(StatusBadRequest, ApiResponse(invalid.value, None)));
      return;
    }
    var service := new Service(ctx, db);
    var err := service.UpdateCampaign(id, body.value, now, fails);
    if err.Some? {
      Respond(w, Reply(StatusInternalServerError, ApiResponse(err.value, None)));
      return;
    }
    Respond(w, Reply(StatusOK, ApiResponse("campaign updated successfully", None)));
  }

  method DeleteCampaignHandler(w: ResponseWriter<Payload>, ctx: Context, id: string, db: CampaignStore, fails: bool)
    requires w.Unwritten() && db.Valid()
    modifies w, db
    ensures db.Valid()
    ensures var ch := Delete(ctx, old(db.rows), id, fails);
      db.rows == ch.rows && w.Sent(DeleteReply(ch.err))
  {
    var service := new Service(ctx, db);
    var err := service.DeleteCampaign(id, fails);
    Respond(w, DeleteReply(err));
  }

  /** A campaign route behind the guard: a request without a verified bearer token gets
      the guard's 401 and never reaches the store; one with a token reads only records
      whose owner is the token's subject. */
  method ProtectedGetCampaignByID(w: ResponseWriter<Payload>, r: Request, id: string, jose: Jose, secret: Secret,
                                  db: CampaignStore, fails: bool)
    requires w.Unwritten() && db.Valid()
    modifies w
    ensures Authenticate(jose, secret, r).Err? ==> w.Sent(UnauthorizedReply())
    ensures w.status == StatusOK ==>
      && Authenticate(jose, secret, r).Ok?
      && GetAuthContext(Authenticate(jose, secret, r).value).Ok?
      && |w.body| == 1 && w.body[0].data.Some? && w.body[0].data.value.OneCampaign?
      && w.body[0].data.value.campaign.createdBy == GetAuthContext(Authenticate(jose, secret, r).value).value.sub
      && w.body[0].data.value.campaign.createdBy
         == jose.parse(GetTokenFromHeader(r)).value.claims["sub"]
  {
    var next := Authenticator(w, r, jose, secret);
    if next.Some? {
      GetCampaignByIDHandler(w, next.value.ctx, id, db, fails);
    }
  }
}
