/**
 * The local "API" (services/backend.ts): sign-in, sign-up, social sign-in, sign-out
 * and the session subscription, and the complaint list and creation, all over the
 * browser's key-value store. The store is a map from keys to the values the API
 * keeps there, already decoded; the simulated delays are left out.
 */
module Backend {
  import opened Wrappers
  import opened Records
  import opened Text

  const SessionKey := "nexus_user_session"
  const ComplaintsKey := "nexus_complaints_v3"
  const UsersDbKey := "nexus_users_database"

  const AvatarBase := "https://api.dicebear.com/7.x/avataaars/svg?seed="

  /** What a key holds: the session user, the user list, the complaint list, or another component's text. */
  datatype Stored =
    | SessionUser(user: User)
    | UserList(users: seq<User>)
    | ComplaintList(complaints: seq<CivicComplaint>)
    | Other(text: string)

  /** `users.find(u => u.email === email)`. */
  function FirstWithEmail(users: seq<User>, email: string): (r: Option<User>)
    ensures r.None? <==> forall k :: 0 <= k < |users| ==> users[k].email != email
    ensures r.Some? ==> exists i :: (0 <= i < |users| && users[i] == r.value && r.value.email == email
      && forall k :: 0 <= k < i ==> users[k].email != email)
  {
    if users == [] then None
    else if users[0].email == email then Some(users[0])
    else
      var r := FirstWithEmail(users[1..], email);
      assert forall k :: 1 <= k < |users| ==> users[k] == users[1..][k - 1];
      if r.Some? then
        var i :| 0 <= i < |users[1..]| && users[1..][i] == r.value && r.value.email == email
          && forall k :: 0 <= k < i ==> users[1..][k].email != email;
        assert users[i + 1] == r.value;
        r
      else r
  }

  /**
   * Appending never changes whom an email finds when it already finds someone: with
   * no duplicate check, signing up again with a known email leaves sign-in returning
   * the earlier account.
   */
  lemma {:induction false} EarlierAccountWins(users: seq<User>, added: User, email: string)
    requires FirstWithEmail(users, email).Some?
    ensures FirstWithEmail(users + [added], email) == FirstWithEmail(users, email)
  {
    if users[0].email != email {
      assert (users + [added])[1..] == users[1..] + [added];
      EarlierAccountWins(users[1..], added, email);
    }
  }

  /** The demo account a sign-in falls back to: id '1', the given email, 1000 credits. */
  function DemoUser(email: string): (u: User)
    ensures u.id == "1" && u.email == email && u.credits == 1000 && u.role == "Citizen"
    ensures u.name == "Guest Citizen" && u.avatar == AvatarBase + email && u.impactScore == ImpactScore(12, 45)
    ensures u.bio.None? && u.constituency.None? && u.state.None? && u.provider.None?
  {
    User("1", "Guest Citizen", email, AvatarBase + email, "Citizen", None, 1000, None, None, ImpactScore(12, 45), None)
  }

  /** A signed-up citizen: 500 credits and a zero impact score. */
  function NewCitizen(id: string, name: string, email: string): (u: User)
    ensures u.id == id && u.name == name && u.email == email && u.avatar == AvatarBase + name
    ensures u.role == "Citizen" && u.credits == 500 && u.impactScore == ImpactScore(0, 0)
    ensures u.bio.None? && u.constituency.None? && u.state.None? && u.provider.None?
  {
    User(id, name, email, AvatarBase + name, "Citizen", None, 500, None, None, ImpactScore(0, 0), None)
  }

  /** A social sign-in account: named after the provider, with a lower-cased provider mail domain. */
  function SocialUser(id: string, provider: string): (u: User)
    ensures u.id == id && u.name == provider + " User" && u.email == "user@" + Lower(provider) + ".com"
    ensures u.avatar == AvatarBase + provider && u.role == "Citizen" && u.credits == 1000
    ensures u.impactScore == ImpactScore(5, 15) && u.provider == Some(provider)
  {
    User(id, provider + " User", "user@" + Lower(provider) + ".com", AvatarBase + provider, "Citizen", None, 1000,
         None, None, ImpactScore(5, 15), Some(provider))
  }

  /** A created complaint: the submitted fields, with the given id and date, and status 'Active'. */
  function Created(complaint: CivicComplaint, id: string, date: string): (c: CivicComplaint)
    ensures c.id == id && c.date == date && c.status == Active
    ensures c.(id := complaint.id, date := complaint.date, status := complaint.status) == complaint
  {
    complaint.(id := id, date := date, status := Active)
  }

  /** The key-value store behind the API. Every call answers with success, so only the data is returned. */
  class LocalStore {
    var store: map<string, Stored>

    /** Each of the API's keys holds the kind of value the API writes there. */
    predicate Valid()
      reads this
    {
      (SessionKey in store ==> store[SessionKey].SessionUser?)
      && (UsersDbKey in store ==> store[UsersDbKey].UserList?)
      && (ComplaintsKey in store ==> store[ComplaintsKey].ComplaintList?)
    }

    constructor(initial: map<string, Stored>)
      requires (SessionKey in initial ==> initial[SessionKey].SessionUser?)
        && (UsersDbKey in initial ==> initial[UsersDbKey].UserList?)
        && (ComplaintsKey in initial ==> initial[ComplaintsKey].ComplaintList?)
      ensures Valid() && store == initial
    {
      store := initial;
    }

    /** The user list, `[]` when none is stored. */
    function Users(): seq<User>
      reads this
      requires Valid()
    {
      if UsersDbKey in store then store[UsersDbKey].users else []
    }

    /** The complaint list, `[]` when none is stored. */
    function Complaints(): seq<CivicComplaint>
      reads this
      requires Valid()
    {
      if ComplaintsKey in store then store[ComplaintsKey].complaints else []
    }

    /**
     * `auth.login`: the first stored user with this email, or else the demo account,
     * becomes the session and is returned. The password plays no part.
     */
    method Login(email: string, password: Option<string>) returns (user: User)
      requires Valid()
      modifies this
      ensures Valid()
      ensures FirstWithEmail(old(Users()), email).Some? ==> user == FirstWithEmail(old(Users()), email).value
      ensures FirstWithEmail(old(Users()), email).None? ==> user == DemoUser(email)
      ensures user.email == email
      ensures store == old(store)[SessionKey := SessionUser(user)]
    {
      var found := FirstWithEmail(Users(), email);
      if found.Some? {
        user := found.value;
      } else {
        user := DemoUser(email);
      }
      store := store[SessionKey := SessionUser(user)];
    }

    /**
     * `auth.signup`: exactly one new citizen appended to the user list, whose earlier
     * entries stay as they were, and the session set to them. An email already in use
     * is not checked for.
     */
    method Signup(name: string, email: string, id: string) returns (user: User)
      requires Valid()
      modifies this
      ensures Valid()
      ensures user == NewCitizen(id, name, email)
      ensures Users() == old(Users()) + [user]
      ensures store == old(store)[UsersDbKey := UserList(old(Users()) + [user])][SessionKey := SessionUser(user)]
    {
      user := NewCitizen(id, name, email);
      var users := Users() + [user];
      store := store[UsersDbKey := UserList(users)];
      store := store[SessionKey := SessionUser(user)];
    }

    /** `auth.socialLogin`: the provider's account becomes the session; the user list is not touched. */
    method SocialLogin(provider: string, id: string) returns (user: User)
      requires Valid()
      modifies this
      ensures Valid()
      ensures user == SocialUser(id, provider)
      ensures store == old(store)[SessionKey := SessionUser(user)]
    {
      user := SocialUser(id, provider);
      store := store[SessionKey := SessionUser(user)];
    }

    /** `auth.logout`: the session key goes, and only it. */
    method Logout()
      requires Valid()
      modifies this
      ensures Valid()
      ensures store == old(store) - {SessionKey}
      ensures SessionKey !in store
      ensures forall k :: k != SessionKey ==> (k in store <==> k in old(store)) && (k in store ==> store[k] == old(store)[k])
    {
      store := store - {SessionKey};
    }

    /** `auth.subscribeToAuth`: the callback is called once, with the session user or with nothing. */
    method SubscribeToAuth() returns (delivered: Option<User>)
      requires Valid()
      ensures SessionKey in store ==> delivered == Some(store[SessionKey].user)
      ensures SessionKey !in store ==> delivered.None?
    {
      if SessionKey in store {
        delivered := Some(store[SessionKey].user);
      } else {
        delivered := None;
      }
    }

    /** `complaints.list`: the stored list, `[]` when none is stored. */
    method ListComplaints() returns (complaints: seq<CivicComplaint>)
      requires Valid()
      ensures ComplaintsKey !in store ==> complaints == []
      ensures ComplaintsKey in store ==> complaints == store[ComplaintsKey].complaints
    {
      complaints := Complaints();
    }

    /** `complaints.create`: the created complaint goes in front of the stored list, which keeps its order. */
    method CreateComplaint(complaint: CivicComplaint, id: string, date: string) returns (created: CivicComplaint)
      requires Valid()
      modifies this
      ensures Valid()
      ensures created == Created(complaint, id, date)
      ensures Complaints() == [created] + old(Complaints())
      ensures store == old(store)[ComplaintsKey := ComplaintList([created] + old(Complaints()))]
    {
      created := Created(complaint, id, date);
      var current := Complaints();
      store := store[ComplaintsKey := ComplaintList([created] + current)];
    }
  }
}
