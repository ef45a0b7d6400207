/** Users, their profiles and trader profiles (accounts/models.py). */
module AccountsModels {
  import opened Results
  import opened Text

  /** The primary key of a user (a random UUID; any distinct value will do here). */
  type UserId = nat
  type LocationId = nat

  datatype User = User(
    id: UserId,
    email: string,
    username: string,
    isTrader: bool,
    isSuperuser: bool,
    location: Option<LocationId>)

  /** commissionRate is a percentage in hundredths (1000 is 10.00 %). */
  datatype TraderProfile = TraderProfile(
    user: UserId,
    companyName: string,
    commissionRate: int,
    approved: bool,
    totalSales: int,
    averageRating: int)

  datatype Profile = Profile(user: UserId)

  datatype Location = Location(country: string, city: string, state: string, street: string)

  datatype AccountsError =
    | DuplicateEmail       // the unique constraint on User.email
    | DuplicateProfile     // the one-to-one constraint of Profile.user or TraderProfile.user

  /** A DecimalField(max_digits=5, decimal_places=2) held in hundredths. */
  predicate FitsRate(hundredths: int) {
    -99999 <= hundredths <= 99999
  }

  const DefaultCommissionRate: int := 1000

  /** The row `TraderProfile.objects.create(user=...)` inserts: every field at its default. */
  function NewTraderProfile(user: UserId): (t: TraderProfile)
    ensures t.user == user
    ensures t.commissionRate == 1000 && FitsRate(t.commissionRate)
    ensures !t.approved && t.companyName == [] && t.totalSales == 0 && t.averageRating == 500
  {
    TraderProfile(user, [], DefaultCommissionRate, false, 0, 500)
  }

  /** `Location.__str__`: the first ten characters of city, state and street,
      joined with ", " and followed by "...". */
  function LocationLabel(l: Location): (r: string)
    ensures |r| == |Take(l.city, 10)| + |Take(l.state, 10)| + |Take(l.street, 10)| + 7 <= 37
    ensures r[|r| - 3..] == "..."
    ensures r[..|Take(l.city, 10)| + 2] == Take(l.city, 10) + ", "
    ensures |l.city| <= 10 && |l.state| <= 10 && |l.street| <= 10 ==>
              r == l.city + ", " + l.state + ", " + l.street + "..."
  {
    Take(l.city, 10) + ", " + Take(l.state, 10) + ", " + Take(l.street, 10) + "..."
  }

  /** The label only depends on the first ten characters of each part. */
  lemma LocationLabelIgnoresTail(l: Location, m: Location)
    requires Take(l.city, 10) == Take(m.city, 10)
    requires Take(l.state, 10) == Take(m.state, 10) && Take(l.street, 10) == Take(m.street, 10)
    ensures LocationLabel(l) == LocationLabel(m)
  {
  }

  /** No two users share an email address. */
  ghost predicate EmailsUnique(users: map<UserId, User>) {
    forall a, b :: a in users && b in users && a != b ==> users[a].email != users[b].email
  }

  /** A user whose email another user already has cannot be written without
      two users sharing that email. */
  lemma ClashBreaksUniqueness(users: map<UserId, User>, u: User)
    ensures (exists k :: k in users && k != u.id && users[k].email == u.email) ==> !EmailsUnique(users[u.id := u])
  {
    if k :| k in users && k != u.id && users[k].email == u.email {
      var after := users[u.id := u];
      assert after[k].email == after[u.id].email;
    }
  }

  /** The user, profile and trader-profile tables. */
  class Accounts {
    var users: map<UserId, User>
    var profiles: map<UserId, Profile>
    var traderProfiles: map<UserId, TraderProfile>

    ghost predicate Valid()
      reads this
    {
      && (forall k :: k in users ==> users[k].id == k)
      && (forall k :: k in profiles ==> profiles[k].user == k)
      && (forall k :: k in traderProfiles ==> traderProfiles[k].user == k)
      && profiles.Keys <= users.Keys
      && traderProfiles.Keys <= users.Keys
      && EmailsUnique(users)
    }

    constructor ()
      ensures Valid()
      ensures users == map[] && profiles == map[] && traderProfiles == map[]
    {
      users, profiles, traderProfiles := map[], map[], map[];
    }

    /** Whether another user already has this email: exactly when writing
        u would break the uniqueness of emails. */
    function EmailTaken(u: User): (taken: bool)
      reads this
      ensures Valid() ==> (!taken <==> EmailsUnique(users[u.id := u]))
    {
      ClashBreaksUniqueness(users, u);
      exists k | k in users :: k != u.id && users[k].email == u.email
    }

    /** The `post_save` receiver `create_profile`: on creation, a trader
        profile for a trader, then a profile for every user; otherwise nothing.
        Each insert is its own statement, so a failing second insert keeps the first. */
    method CreateProfile(instance: User, created: bool) returns (r: Outcome<AccountsError>)
      requires Valid() && instance.id in users
      modifies this
      ensures Valid() && users == old(users)
      ensures !created ==> r == Pass && profiles == old(profiles) && traderProfiles == old(traderProfiles)
      ensures created && instance.isTrader && instance.id in old(traderProfiles) ==>
                r == Fail(DuplicateProfile) && profiles == old(profiles) && traderProfiles == old(traderProfiles)
      ensures created && instance.isTrader && instance.id !in old(traderProfiles) ==>
                traderProfiles == old(traderProfiles)[instance.id := NewTraderProfile(instance.id)]
      ensures created && !instance.isTrader ==> traderProfiles == old(traderProfiles)
      ensures created && (instance.isTrader ==> instance.id !in old(traderProfiles)) ==>
                if instance.id in old(profiles)
                then r == Fail(DuplicateProfile) && profiles == old(profiles)
                else r == Pass && profiles == old(profiles)[instance.id := Profile(instance.id)]
    {
      if !created {
        return Pass;
      }
      if instance.isTrader {
        if instance.id in traderProfiles {
          return Fail(DuplicateProfile);
        }
        traderProfiles := traderProfiles[instance.id := NewTraderProfile(instance.id)];
      }
      if instance.id in profiles {
        return Fail(DuplicateProfile);
      }
      profiles := profiles[instance.id := Profile(instance.id)];
      r := Pass;
    }

    /** `User.save()` followed by its `post_save` signal. The row is inserted
        when its key is new (created) and updated otherwise; an email another
        user holds is refused. A new user gets exactly one profile, and a
        trader profile exactly when it is a trader. */
    method SaveUser(u: User) returns (r: Result<bool, AccountsError>)
      requires Valid()
      modifies this
      ensures Valid()
      ensures r.Err? <==> old(EmailTaken(u))
      ensures r.Err? ==> r.error == DuplicateEmail && users == old(users)
                          && profiles == old(profiles) && traderProfiles == old(traderProfiles)
      ensures r.Ok? ==> users == old(users)[u.id := u] && (r.value <==> u.id !in old(users))
      ensures r.Ok? && u.id in old(users) ==>
                profiles == old(profiles) && traderProfiles == old(traderProfiles)
      ensures r.Ok? && u.id !in old(users) ==>
                && profiles == old(profiles)[u.id := Profile(u.id)]
                && traderProfiles == (if u.isTrader then old(traderProfiles)[u.id := NewTraderProfile(u.id)]
                                      else old(traderProfiles))
    {
      if EmailTaken(u) {
        return Err(DuplicateEmail);
      }
      var created := u.id !in users;
      users := users[u.id := u];
      var signal := CreateProfile(u, created);
      r := Ok(created);
    }
  }
}
