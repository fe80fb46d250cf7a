/** The records of internal/models/models.go and the parts of Go's time.Time they need. */
module Models {

  /** An instant, as whole seconds since 0001-01-01 00:00:00 UTC (the epoch of Go's
      time.Time); the zero Time, which a missing JSON date decodes to, is 0. */
  type Time = int

  const ZeroTime: Time := 0

  /** Seconds from Go's epoch to 1970-01-01 00:00:00 UTC. */
  const UnixToInternal: int := 62135596800

  predicate IsZero(t: Time) { t == ZeroTime }

  /** `t.Before(u)`: strictly earlier. */
  predicate Before(t: Time, u: Time) { t < u }

  /** `t.Unix()`: seconds since the Unix epoch. */
  function Unix(t: Time): int { t - UnixToInternal }

  datatype User = User(id: string, name: string, email: string, phone: string, address: string, password: string)

  datatype Campaign = Campaign(
    id: string,
    name: string,
    description: string,
    startDate: Time,
    endDate: Time,
    bannerUrl: string,
    createdBy: string,
    createdAt: Time,
    updatedAt: Time)

  /** The zero values `models.User{}` and `models.Campaign{}`. */
  const NoUser: User := User("", "", "", "", "", "")
  const NoCampaign: Campaign := Campaign("", "", "", ZeroTime, ZeroTime, "", "", ZeroTime, ZeroTime)
}
