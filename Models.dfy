// Plain records shared by the client modules: churches, contributions,
// users and the identity handle returned by the identity provider.

module Models {

  datatype Option<T> = None | Some(value: T)

  /** Outcome of a call into code outside the model (identity provider,
      network, bundle, timers): a value, or an error carrying its
      human-readable description. */
  datatype Fetched<T> = Ok(value: T) | Failed(description: string)

  /** A geographic coordinate; only compared and passed through. */
  datatype Coordinate = Coordinate(latitude: real, longitude: real)

  datatype BankAccount = BankAccount(accountNumber: string, bankName: string)

  datatype Donations = Donations(gcashNumber: string, bankAccount: BankAccount)

  /** One church record of the directory (Models/Church.swift). */
  datatype Church = Church(
    id: string,
    name: string,
    description: string,
    avatarUrl: string,
    shortDescription: string,
    latitude: real,
    longitude: real,
    phone: string,
    email: string,
    address: string,
    countryGroup: string,
    facebookUrl: string,
    instagramUrl: string,
    serviceTimes: seq<string>,
    region: string,
    photos: seq<string>,
    donations: Donations)

  /** Accessors used as first-class keys when grouping churches. */
  function RegionOf(c: Church): string { c.region }

  function CountryGroupOf(c: Church): string { c.countryGroup }

  /** The three cases of ContributionCategory. */
  datatype ContributionCategory = ChurchCategory | Missionaries | Community

  datatype Contribution = Contribution(
    id: string,
    name: string,
    amount: real,
    date: string,
    category: ContributionCategory)

  datatype UserRole = UserRole(id: int, email: string, role: string)

  /** The locally cached profile (Models/User.swift `User`). */
  datatype User = User(
    userID: Option<int>,
    email: string,
    firstName: Option<string>,
    lastName: Option<string>,
    role: Option<UserRole>)

  datatype PendingUser = PendingUser(email: string, approved: bool)

  datatype Tokens = Tokens(idToken: string, accessToken: string, refreshToken: string)

  /** The identity provider's user handle: an id and a user name. */
  datatype AuthUser = AuthUser(userId: string, username: string)
}
